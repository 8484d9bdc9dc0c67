/**
 * Gemini over the stateful Interactions API: each request sends only what is
 * new and names the interaction the server already holds. Runs of one
 * conversation may overlap, abort and fail, so client and server together
 * are a step machine; the server's transcripts are what the client never sees.
 */
module InteractionsChain {
  import opened Prelude

  datatype Role = User | Assistant | Tool | System | OtherRole(name: string)

  /** A message as the client serializes it: two messages are equal when their JSON is. */
  datatype Message = Message(role: Role, content: Option<string>, name: string, toolCallId: string, payload: string)

  datatype Step =
    | UserInput(text: string)
    | FunctionResult(callId: string, name: string, text: string)

  /** A message as an input step, or None when it cannot be sent as one. */
  function InputStep(m: Message): Option<Step> {
    if m.role.Tool? then
      if m.toolCallId == "" then None else Some(FunctionResult(m.toolCallId, m.name, if m.content.Some? then m.content.value else "\"\""))
    else if m.role.User? || m.role.System? then
      if m.content.None? || m.content.value == "" then None else Some(UserInput(m.content.value))
    else
      None
  }

  datatype Chain = Chain(interactionId: nat, messages: seq<Message>)

  datatype Plan = Plan(previous: Option<nat>, steps: seq<Step>)

  // ── What a plan must say ──────────────────────────────────────────

  /** The messages that are not the model's own. */
  function NonAssistant(ms: seq<Message>): seq<Message> {
    if ms == [] then []
    else NonAssistant(Init(ms)) + (if Last(ms).role.Assistant? then [] else [Last(ms)])
  }

  ghost predicate Sendable(ms: seq<Message>) {
    forall i :: 0 <= i < |ms| ==> InputStep(ms[i]).Some?
  }

  function Steps(ms: seq<Message>): seq<Step>
    requires forall i :: 0 <= i < |ms| ==> InputStep(ms[i]).Some?
  {
    if ms == [] then [] else Steps(Init(ms)) + [InputStep(Last(ms)).value]
  }

  /** Every message of the request that the model did not write, as the server should hold it. */
  function ItemsOf(ms: seq<Message>): seq<Step>
    requires Sendable(NonAssistant(ms))
  {
    Steps(NonAssistant(ms))
  }

  ghost predicate AllAssistant(ms: seq<Message>) {
    forall i :: 0 <= i < |ms| ==> ms[i].role.Assistant?
  }

  /**
   * The request extends `chain`: the recorded messages, then the model's own
   * turns `messages[|chain.messages|..turn]` (at least one), then new items.
   */
  ghost predicate Extends(chain: Chain, messages: seq<Message>, turn: nat) {
    && |chain.messages| < turn < |messages|
    && chain.messages == messages[..|chain.messages|]
    && AllAssistant(messages[|chain.messages|..turn])
    && Sendable(messages[turn..])
  }

  ghost predicate HasModelTurn(messages: seq<Message>) {
    exists i :: 0 <= i < |messages| && messages[i].role.Assistant?
  }

  /** `plan` is what planInteractionRequest answers for these messages and this chain. */
  ghost predicate IsPlan(chain: Option<Chain>, messages: seq<Message>, plan: Option<Plan>) {
    if !HasModelTurn(messages) then
      plan == if Sendable(messages) then Some(Plan(None, Steps(messages))) else None
    else if chain.Some? && exists turn: nat :: Extends(chain.value, messages, turn) then
      exists turn: nat :: Extends(chain.value, messages, turn) && plan == Some(Plan(Some(chain.value.interactionId), Steps(messages[turn..])))
    else
      plan == None
  }

  lemma {:induction false} NonAssistantAppends(a: seq<Message>, b: seq<Message>)
    ensures NonAssistant(a + b) == NonAssistant(a) + NonAssistant(b)
  {
    if b == [] {
      assert a + b == a;
    } else {
      NonAssistantAppends(a, Init(b));
      assert Init(a + b) == a + Init(b) && Last(a + b) == Last(b);
    }
  }

  lemma {:induction false} AssistantsVanish(ms: seq<Message>)
    requires AllAssistant(ms)
    ensures NonAssistant(ms) == []
  {
    if ms != [] {
      assert Last(ms).role.Assistant?;
      AssistantsVanish(Init(ms));
    }
  }

  lemma SendableParts(ms: seq<Message>)
    requires ms != [] && Sendable(ms)
    ensures Sendable(Init(ms)) && !Last(ms).role.Assistant?
  {
    assert InputStep(ms[|ms| - 1]).Some?;
    assert forall i :: 0 <= i < |ms| - 1 ==> Init(ms)[i] == ms[i];
  }

  lemma {:induction false} SendablesStay(ms: seq<Message>)
    requires Sendable(ms)
    ensures NonAssistant(ms) == ms
  {
    if ms != [] {
      SendableParts(ms);
      SendablesStay(Init(ms));
      InitAndLast(ms);
    }
  }

  lemma {:induction false} StepsAppend(a: seq<Message>, b: seq<Message>)
    requires Sendable(a) && Sendable(b)
    ensures Sendable(a + b) && Steps(a + b) == Steps(a) + Steps(b)
  {
    if b == [] {
      assert a + b == a;
    } else {
      StepsAppend(a, Init(b));
      assert Init(a + b) == a + Init(b) && Last(a + b) == Last(b);
    }
  }

  /** Recorded messages, then the model's own, then new items: what is held plus what is sent is everything. */
  lemma PartsAddUp(held: seq<Message>, own: seq<Message>, tail: seq<Message>)
    requires Sendable(NonAssistant(held)) && AllAssistant(own) && Sendable(tail)
    ensures Sendable(NonAssistant(held + own + tail))
    ensures ItemsOf(held) + Steps(tail) == ItemsOf(held + own + tail)
  {
    NonAssistantAppends(held + own, tail);
    NonAssistantAppends(held, own);
    AssistantsVanish(own);
    assert NonAssistant(held) + [] == NonAssistant(held);
    SendablesStay(tail);
    StepsAppend(NonAssistant(held), tail);
  }

  lemma ContinuationAddsUp(chain: Chain, messages: seq<Message>, turn: nat)
    requires Extends(chain, messages, turn) && Sendable(NonAssistant(chain.messages))
    ensures Sendable(NonAssistant(messages))
    ensures ItemsOf(chain.messages) + Steps(messages[turn..]) == ItemsOf(messages)
  {
    var own := messages[|chain.messages|..turn];
    assert messages == chain.messages + own + messages[turn..];
    PartsAddUp(chain.messages, own, messages[turn..]);
  }

  /** Where the new items begin: the first message past the record that the model did not write. */
  lemma TurnIsFirstItem(chain: Chain, messages: seq<Message>, turn: nat)
    requires Extends(chain, messages, turn)
    ensures !messages[turn].role.Assistant?
    ensures forall i :: |chain.messages| <= i < turn ==> messages[i].role.Assistant?
  {
    assert messages[turn] == messages[turn..][0];
    forall i | |chain.messages| <= i < turn
      ensures messages[i].role.Assistant?
    {
      assert messages[i] == messages[|chain.messages|..turn][i - |chain.messages|];
    }
  }

  /** So a plan is determined by the chain and the messages. */
  lemma PlanIsUnique(chain: Option<Chain>, messages: seq<Message>, p: Option<Plan>, q: Option<Plan>)
    requires IsPlan(chain, messages, p) && IsPlan(chain, messages, q)
    ensures p == q
  {
    if p != q {
      forall turn: nat | Extends(chain.value, messages, turn)
        ensures !messages[turn].role.Assistant? && forall i :: |chain.value.messages| <= i < turn ==> messages[i].role.Assistant?
      {
        TurnIsFirstItem(chain.value, messages, turn);
      }
    }
  }

  // ── The client ────────────────────────────────────────────────────

  ghost function ChainFor(chains: map<string, Chain>, key: Option<string>): Option<Chain> {
    if key.Some? && key.value in chains then Some(chains[key.value]) else None
  }

  /** Every message mapped to its step, or None as soon as one has none. */
  method MapInputSteps(ms: seq<Message>) returns (steps: Option<seq<Step>>)
    ensures steps == if Sendable(ms) then Some(Steps(ms)) else None
  {
    var out: seq<Step> := [];
    for i := 0 to |ms|
      invariant Sendable(ms[..i]) && out == Steps(ms[..i])
    {
      var step := InputStep(ms[i]);
      if step.None? {
        return None;
      }
      assert ms[..i + 1] == ms[..i] + [ms[i]];
      out := out + [step.value];
    }
    assert ms[..|ms|] == ms;
    return Some(out);
  }

  class Interactions {
    var chains: map<string, Chain>

    constructor ()
      ensures chains == map[]
    {
      chains := map[];
    }

    /** Which interaction to continue and with what, or None when the request cannot go this way. */
    method PlanInteractionRequest(key: Option<string>, messages: seq<Message>) returns (plan: Option<Plan>)
      ensures IsPlan(ChainFor(chains, key), messages, plan)
    {
      var hasModelTurn := exists i :: 0 <= i < |messages| && messages[i].role.Assistant?;
      if !hasModelTurn {
        var steps := MapInputSteps(messages);
        return if steps.Some? then Some(Plan(None, steps.value)) else None;
      }
      if key.None? || key.value !in chains {
        return None;
      }
      var chain := chains[key.value];
      if |messages| <= |chain.messages| {
        return None;
      }
      var index := 0;
      while index < |chain.messages|
        invariant 0 <= index <= |chain.messages|
        invariant messages[..index] == chain.messages[..index]
      {
        if messages[index] != chain.messages[index] {
          return None;
        }
        index := index + 1;
      }
      forall turn: nat | Extends(chain, messages, turn)
        ensures !messages[turn].role.Assistant? && forall i :: |chain.messages| <= i < turn ==> messages[i].role.Assistant?
      {
        TurnIsFirstItem(chain, messages, turn);
      }
      if !messages[index].role.Assistant? {
        return None;
      }
      while index < |messages| && messages[index].role.Assistant?
        invariant |chain.messages| <= index <= |messages|
        invariant forall i :: |chain.messages| <= i < index ==> messages[i].role.Assistant?
        invariant index == |chain.messages| ==> messages[index].role.Assistant?
      {
        index := index + 1;
      }
      var tail := MapInputSteps(messages[index..]);
      if index == |messages| || tail.None? {
        return None;
      }
      assert Extends(chain, messages, index);
      return Some(Plan(Some(chain.interactionId), tail.value));
    }

    /** The end of a run's stream: the chain is recorded only when the server named its interaction. */
    method EndRun(key: Option<string>, interactionId: Option<nat>, messages: seq<Message>)
      modifies this
      ensures chains == Recorded(old(chains), key, interactionId, messages)
    {
      if interactionId.Some? && key.Some? {
        chains := chains[key.value := Chain(interactionId.value, messages)];
      }
    }
  }

  function Recorded(chains: map<string, Chain>, key: Option<string>, id: Option<nat>, messages: seq<Message>): map<string, Chain> {
    if id.Some? && key.Some? then chains[key.value := Chain(id.value, messages)] else chains
  }

  // ── Client and server together ────────────────────────────────────

  /** Where a run is: planned, accepted by the server as `interaction` (perhaps named to the client), or over. */
  datatype Phase = Planned | Accepted(interaction: nat, named: bool) | Ended

  datatype Run = Run(key: Option<string>, messages: seq<Message>, plan: Plan, phase: Phase)

  /** `held[id]` are the items other than the model's own that the server keeps for interaction `id`. */
  datatype World = World(chains: map<string, Chain>, runs: seq<Run>, held: seq<seq<Step>>)

  const START := World(map[], [], [])

  datatype Event =
    | Begin(key: Option<string>, messages: seq<Message>, plan: Plan)
    | Accept(run: nat)
    | Name(run: nat)
    | AbortOrFail(run: nat)
    | Finish(run: nat)

  /** The transcript a request leaves at the server: what the named interaction held, then the new steps. */
  function HeldAfter(held: seq<seq<Step>>, plan: Plan): seq<Step>
    requires plan.previous.Some? ==> plan.previous.value < |held|
  {
    (if plan.previous.Some? then held[plan.previous.value] else []) + plan.steps
  }

  ghost predicate Enabled(w: World, e: Event) {
    match e
    case Begin(key, messages, plan) => IsPlan(ChainFor(w.chains, key), messages, Some(plan))
    case Accept(r) => r < |w.runs| && w.runs[r].phase.Planned? &&
      (w.runs[r].plan.previous.Some? ==> w.runs[r].plan.previous.value < |w.held|)
    case Name(r) => r < |w.runs| && w.runs[r].phase.Accepted?
    case AbortOrFail(r) => r < |w.runs| && !w.runs[r].phase.Ended?
    case Finish(r) => r < |w.runs| && w.runs[r].phase.Accepted?
  }

  function Next(w: World, e: Event): World
    requires Enabled(w, e)
  {
    match e
    case Begin(key, messages, plan) => w.(runs := w.runs + [Run(key, messages, plan, Planned)])
    case Accept(r) =>
      w.(runs := w.runs[r := w.runs[r].(phase := Accepted(|w.held|, false))], held := w.held + [HeldAfter(w.held, w.runs[r].plan)])
    case Name(r) => w.(runs := w.runs[r := w.runs[r].(phase := Accepted(w.runs[r].phase.interaction, true))])
    case AbortOrFail(r) => w.(runs := w.runs[r := w.runs[r].(phase := Ended)])
    case Finish(r) =>
      var run := w.runs[r];
      var id := if run.phase.named then Some(run.phase.interaction) else None;
      w.(runs := w.runs[r := run.(phase := Ended)], chains := Recorded(w.chains, run.key, id, run.messages))
  }

  ghost predicate Reaches(events: seq<Event>, w: World) {
    if events == [] then w == START
    else exists before: World :: Reaches(Init(events), before) && Enabled(before, Last(events)) && w == Next(before, Last(events))
  }

  /** The server holds, for this interaction, exactly these messages' items. */
  ghost predicate Holds(w: World, id: nat, messages: seq<Message>) {
    id < |w.held| && Sendable(NonAssistant(messages)) && w.held[id] == ItemsOf(messages)
  }

  /** What the server held when a request was planned, plus its steps, are the request's items. */
  ghost predicate AddsUp(w: World, run: Run) {
    && (run.plan.previous.Some? ==> run.plan.previous.value < |w.held|)
    && Sendable(NonAssistant(run.messages))
    && HeldAfter(w.held, run.plan) == ItemsOf(run.messages)
    && (run.phase.Accepted? ==> Holds(w, run.phase.interaction, run.messages))
  }

  ghost predicate Inv(w: World) {
    && (forall k :: k in w.chains ==> Holds(w, w.chains[k].interactionId, w.chains[k].messages))
    && (forall r :: 0 <= r < |w.runs| ==> AddsUp(w, w.runs[r]))
  }

  lemma PlanAddsUp(w: World, key: Option<string>, messages: seq<Message>, plan: Plan)
    requires Inv(w) && IsPlan(ChainFor(w.chains, key), messages, Some(plan))
    ensures AddsUp(w, Run(key, messages, plan, Planned))
  {
    if !HasModelTurn(messages) {
      SendablesStay(messages);
      assert [] + plan.steps == plan.steps;
    } else {
      var chain := w.chains[key.value];
      var turn: nat :| Extends(chain, messages, turn) && plan == Plan(Some(chain.interactionId), Steps(messages[turn..]));
      assert Holds(w, chain.interactionId, chain.messages);
      ContinuationAddsUp(chain, messages, turn);
    }
  }

  lemma StepKeepsInv(w: World, e: Event)
    requires Inv(w) && Enabled(w, e)
    ensures Inv(Next(w, e))
  {
    var next := Next(w, e);
    if e.Begin? {
      PlanAddsUp(w, e.key, e.messages, e.plan);
    } else {
      assert AddsUp(w, w.runs[e.run]);
    }
    forall r | 0 <= r < |w.runs|
      ensures AddsUp(next, next.runs[r])
    {
      assert AddsUp(w, w.runs[r]);
    }
  }

  // ── What the steps say ────────────────────────────────────────────

  /** A tool's message can be sent if it names its call, a user or system message if it says something, no other. */
  ghost predicate CanBeSent(m: Message) {
    || (m.role == Tool && m.toolCallId != "")
    || ((m.role == User || m.role == System) && m.content.Some? && |m.content.value| > 0)
  }

  /** A tool's message is the result of its own call, under its own name; a user or system message is its text. */
  ghost predicate Says(step: Step, m: Message) {
    && (m.role == Tool ==> step.FunctionResult? && step.callId == m.toolCallId && step.name == m.name)
    && (m.role == Tool && m.content.Some? ==> step.text == m.content.value)
    && (m.role == Tool && m.content.None? ==> step.text == ['"', '"'])
    && (m.role == User || m.role == System ==> step.UserInput? && m.content == Some(step.text))
  }

  ghost predicate SayEach(steps: seq<Step>, ms: seq<Message>) {
    |steps| == |ms| && forall i :: 0 <= i < |ms| ==> CanBeSent(ms[i]) && Says(steps[i], ms[i])
  }

  lemma StepSaysItsMessage(m: Message)
    ensures InputStep(m).Some? <==> CanBeSent(m)
    ensures InputStep(m).Some? ==> Says(InputStep(m).value, m)
  {
  }

  lemma {:induction false} StepsSayTheirMessages(ms: seq<Message>)
    requires Sendable(ms)
    ensures SayEach(Steps(ms), ms)
  {
    if ms != [] {
      SendableParts(ms);
      StepsSayTheirMessages(Init(ms));
      StepSaysItsMessage(Last(ms));
      assert InputStep(ms[|ms| - 1]).Some?;
    }
  }

  /** Over every run: what the server holds for a run's interaction says what its messages say, one each and in order, the model's own apart. */
  lemma ServerHoldsWhatWasSaid(events: seq<Event>, w: World, r: nat)
    requires Reaches(events, w) && r < |w.runs| && w.runs[r].phase.Accepted?
    ensures w.runs[r].phase.interaction < |w.held|
    ensures SayEach(w.held[w.runs[r].phase.interaction], NonAssistant(w.runs[r].messages))
  {
    EveryRunAddsUp(events, w);
    assert AddsUp(w, w.runs[r]);
    StepsSayTheirMessages(NonAssistant(w.runs[r].messages));
  }

  /** What a finished run recorded is continued by the next request that extends it, with the new items alone. */
  lemma RecordedIsContinued(chains: map<string, Chain>, key: string, id: nat, held: seq<Message>, own: seq<Message>, tail: seq<Message>)
    requires own != [] && AllAssistant(own) && tail != [] && Sendable(tail)
    ensures IsPlan(ChainFor(Recorded(chains, Some(key), Some(id), held), Some(key)), held + own + tail, Some(Plan(Some(id), Steps(tail))))
  {
    var messages, turn, chain := held + own + tail, |held| + |own|, Chain(id, held);
    assert messages[|held|] == own[0] && own[0].role.Assistant?;
    assert messages[turn..] == tail && messages[|held|..turn] == own && messages[..|held|] == held;
    assert Extends(chain, messages, turn);
  }

  /** Over every run of the system: overlapping, aborted and failed requests on any keys. */
  lemma {:induction false} EveryRunAddsUp(events: seq<Event>, w: World)
    requires Reaches(events, w)
    ensures Inv(w)
  {
    if events != [] {
      var before: World :| Reaches(Init(events), before) && Enabled(before, Last(events)) && w == Next(before, Last(events));
      EveryRunAddsUp(Init(events), before);
      StepKeepsInv(before, Last(events));
    }
  }
}
