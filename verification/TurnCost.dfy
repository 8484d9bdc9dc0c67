/** What a prompt cost: the last report of each of its turns, plus the sub-agents that completed. */
module TurnCost {
  import opened Prelude
  import opened TurnTranslation
  import opened ToolLifecycle

  // ── What should be counted ────────────────────────────────────────

  /** The events cut after each `done`: the last piece is the turn still running. */
  function Turns(bodies: seq<Body>): (turns: seq<seq<Body>>)
    ensures turns != []
  {
    if bodies == [] then [[]]
    else Grown(Turns(Init(bodies)), Last(bodies))
  }

  function Grown(turns: seq<seq<Body>>, b: Body): (grown: seq<seq<Body>>)
    requires turns != []
    ensures grown != []
  {
    Init(turns) + [Last(turns) + [b]] + if b.TurnDone? then [[]] else []
  }

  /** A running total of the turn itself. Usage tagged with an operation is another bill. */
  function CostReported(b: Body): Option<real> {
    match b
    case UsageUpdate(operation, cost) => if operation == "" then cost else None
    case TurnDone(_, _, cost) => cost
    case _ => None
  }

  function LastReported(turn: seq<Body>): Option<real> {
    if turn == [] then None
    else if CostReported(Last(turn)).Some? then CostReported(Last(turn))
    else LastReported(Init(turn))
  }

  function Total(costs: seq<Option<real>>): Option<real> {
    if costs == [] then None else Add(Total(Init(costs)), Last(costs))
  }

  function TurnCosts(turns: seq<seq<Body>>): seq<Option<real>> {
    seq(|turns|, i requires 0 <= i < |turns| => LastReported(turns[i]))
  }

  /** The reports of sub-agents whose call the editor was told of. */
  function SubAgentCosts(costBefore: real, bodies: seq<Body>): seq<Option<real>> {
    if bodies == [] then []
    else
      var before := Init(bodies);
      SubAgentCosts(costBefore, before) + SubAgentCost(Display(costBefore, before).Keys, Last(bodies))
  }

  function SubAgentCost(known: set<string>, b: Body): seq<Option<real>> {
    if b.About? && b.call.Complete? && SUB_AGENT + b.call.subAgentId in known then [b.call.cost] else []
  }

  // ── Sums ──────────────────────────────────────────────────────────

  lemma AddingIsOrderless(a: Option<real>, b: Option<real>, c: Option<real>)
    ensures Add(Add(a, b), c) == Add(a, Add(b, c)) == Add(Add(a, c), b)
  {
  }

  lemma {:induction false} TotalAppends(a: seq<Option<real>>, b: seq<Option<real>>)
    ensures Total(a + b) == Add(Total(a), Total(b))
  {
    if b == [] {
      assert a + b == a;
    } else {
      TotalAppends(a, Init(b));
      assert Init(a + b) == a + Init(b) && Last(a + b) == Last(b);
    }
  }

  lemma TotalOfOne(cost: Option<real>)
    ensures Total([cost]) == cost
  {
    assert Init([cost]) == [];
  }

  lemma {:induction false} TotalIsNullExactly(costs: seq<Option<real>>)
    ensures Total(costs) == None <==> forall i :: 0 <= i < |costs| ==> costs[i] == None
  {
    if costs != [] {
      TotalIsNullExactly(Init(costs));
      assert forall i :: 0 <= i < |costs| - 1 ==> costs[i] == Init(costs)[i];
    }
  }

  // ── The cut ───────────────────────────────────────────────────────

  function Rejoined(turns: seq<seq<Body>>): seq<Body> {
    FlatMap((turn: seq<Body>) => turn, turns)
  }

  lemma RejoinedSnoc(turns: seq<seq<Body>>, turn: seq<Body>)
    ensures Rejoined(turns + [turn]) == Rejoined(turns) + turn
  {
    FlatMapAppends((turn: seq<Body>) => turn, turns, [turn]);
    FlatMapOne((turn: seq<Body>) => turn, turn);
  }

  ghost predicate EndsWithDone(turn: seq<Body>) {
    turn != [] && Last(turn).TurnDone? && NoneDone(Init(turn))
  }

  ghost predicate NoneDone(bodies: seq<Body>) {
    forall i :: 0 <= i < |bodies| ==> !bodies[i].TurnDone?
  }

  /** Each piece but the last ends with its only `done`; the last has none. */
  ghost predicate WellCut(turns: seq<seq<Body>>) {
    && turns != [] && NoneDone(Last(turns))
    && forall i :: 0 <= i < |turns| - 1 ==> EndsWithDone(turns[i])
  }

  lemma GrowingRejoins(turns: seq<seq<Body>>, b: Body)
    requires turns != []
    ensures Rejoined(Grown(turns, b)) == Rejoined(turns) + [b]
  {
    var front, last := Init(turns), Last(turns);
    var longer := last + [b];
    var grown := front + [longer];
    RejoinedSnoc(front, last);
    RejoinedSnoc(front, longer);
    RejoinedSnoc(grown, []);
    assert turns == front + [last];
    var rejoined := Rejoined(front);
    assert rejoined + longer == rejoined + last + [b];
    assert Rejoined(grown) + [] == Rejoined(grown);
    assert grown + [] == grown;
  }

  lemma GrowingCutsWell(turns: seq<seq<Body>>, b: Body)
    requires WellCut(turns)
    ensures WellCut(Grown(turns, b))
  {
    var n := |turns| - 1;
    var longer := Last(turns) + [b];
    assert Init(longer) == Last(turns);
    var grown := Grown(turns, b);
    assert forall i :: 0 <= i < n ==> grown[i] == turns[i];
    assert grown[n] == longer;
  }

  /** The pieces are the events, cut after every `done` and nowhere else. */
  lemma {:induction false} TurnsAreTheEvents(bodies: seq<Body>)
    ensures Rejoined(Turns(bodies)) == bodies
    ensures WellCut(Turns(bodies))
  {
    if bodies == [] {
      RejoinedSnoc([], []);
      assert [] + [[]] == Turns(bodies);
    } else {
      TurnsAreTheEvents(Init(bodies));
      GrowingRejoins(Turns(Init(bodies)), Last(bodies));
      GrowingCutsWell(Turns(Init(bodies)), Last(bodies));
    }
  }

  // ── The cost as kept ──────────────────────────────────────────────

  /** The two running totals. */
  datatype Kept = Kept(ended: Option<real>, running: Option<real>)

  function KeptBy(s: State): Kept { Kept(s.endedTurnsCost, s.runningTurnCost) }

  function After(k: Kept, known: set<string>, b: Body): Kept {
    if b.TurnDone? then Kept(Add(k.ended, if b.cost.Some? then b.cost else k.running), None)
    else Kept(Add(k.ended, Total(SubAgentCost(known, b))), if CostReported(b).Some? then CostReported(b) else k.running)
  }

  /** What should be kept: the turns that ended with the sub-agents, and the turn that runs. */
  function Expected(costBefore: real, bodies: seq<Body>): Kept {
    Kept(Add(Total(TurnCosts(Init(Turns(bodies)))), Total(SubAgentCosts(costBefore, bodies))), LastReported(Last(Turns(bodies))))
  }

  lemma {:induction false} LinksCostNothing(s: State, sources: seq<Source>)
    ensures KeptBy(Linked(s, sources).state) == KeptBy(s) && Linked(s, sources).state.outcome == s.outcome
  {
    if sources != [] {
      LinksCostNothing(s, Init(sources));
    }
  }

  ghost predicate KeepsUp(s: State, t: State, b: Body) {
    && KeptBy(t) == After(KeptBy(s), AsMap(s.tools).Keys, b)
    && t.outcome.turnCost == Add(t.endedTurnsCost, t.runningTurnCost)
  }

  lemma CompleteKeepsUp(s: State, subAgentId: string, cost: Option<real>, summary: string)
    requires s.outcome.turnCost == Add(s.endedTurnsCost, s.runningTurnCost)
    ensures KeepsUp(s, Completes(s, subAgentId, cost, summary).state, About(Complete(subAgentId, cost, summary)))
  {
    TotalOfOne(cost);
  }

  lemma CallsKeepUp(s: State, b: CallBody)
    requires s.outcome.turnCost == Add(s.endedTurnsCost, s.runningTurnCost)
    ensures KeepsUp(s, CallTranslated(s, b).state, About(b))
  {
    if b.Complete? {
      CompleteKeepsUp(s, b.subAgentId, b.cost, b.summary);
    } else {
      CallsCostNothing(s, b);
    }
  }

  lemma CallsCostNothing(s: State, b: CallBody)
    requires !b.Complete?
    ensures KeptBy(CallTranslated(s, b).state) == KeptBy(s) && CallTranslated(s, b).state.outcome == s.outcome
  {
  }

  lemma StepKeepsUp(costBefore: real, s: State, b: Body)
    requires s.outcome.turnCost == Add(s.endedTurnsCost, s.runningTurnCost)
    ensures KeepsUp(s, TranslateBody(costBefore, s, b).state, b)
  {
    if b.About? {
      CallsKeepUp(s, b.call);
    } else if b.Sources? {
      LinksCostNothing(s, b.sources);
    }
  }

  lemma TurnCostsSnoc(turns: seq<seq<Body>>, turn: seq<Body>)
    ensures Total(TurnCosts(turns + [turn])) == Add(Total(TurnCosts(turns)), LastReported(turn))
  {
    assert TurnCosts(turns + [turn]) == TurnCosts(turns) + [LastReported(turn)];
    TotalAppends(TurnCosts(turns), [LastReported(turn)]);
    TotalOfOne(LastReported(turn));
  }

  lemma LastReportedSnoc(turn: seq<Body>, b: Body)
    ensures LastReported(turn + [b]) == if CostReported(b).Some? then CostReported(b) else LastReported(turn)
  {
    assert Init(turn + [b]) == turn;
  }

  lemma GrowingCosts(turns: seq<seq<Body>>, b: Body)
    requires turns != []
    ensures var grown := Grown(turns, b);
      var reported := LastReported(Last(turns) + [b]);
      && LastReported(Last(grown)) == (if b.TurnDone? then None else reported)
      && Total(TurnCosts(Init(grown)))
         == if b.TurnDone? then Add(Total(TurnCosts(Init(turns))), reported) else Total(TurnCosts(Init(turns)))
  {
    if b.TurnDone? {
      assert Init(Grown(turns, b)) == Init(turns) + [Last(turns) + [b]];
      TurnCostsSnoc(Init(turns), Last(turns) + [b]);
    } else {
      assert Init(Grown(turns, b)) == Init(turns);
    }
  }

  lemma SubAgentCostsSnoc(costBefore: real, bodies: seq<Body>, b: Body)
    ensures Total(SubAgentCosts(costBefore, bodies + [b]))
         == Add(Total(SubAgentCosts(costBefore, bodies)), Total(SubAgentCost(Display(costBefore, bodies).Keys, b)))
  {
    assert Init(bodies + [b]) == bodies;
    TotalAppends(SubAgentCosts(costBefore, bodies), SubAgentCost(Display(costBefore, bodies).Keys, b));
  }

  lemma TurnsSnoc(bodies: seq<Body>, b: Body)
    ensures Turns(bodies + [b]) == Grown(Turns(bodies), b)
  {
    assert Init(bodies + [b]) == bodies;
  }

  lemma TotalsAfter(ended: Option<real>, agents: Option<real>, running: Option<real>, known: set<string>, b: Body)
    ensures var reported := if CostReported(b).Some? then CostReported(b) else running;
      After(Kept(Add(ended, agents), running), known, b)
      == if b.TurnDone? then Kept(Add(Add(ended, reported), Add(agents, Total(SubAgentCost(known, b)))), None)
         else Kept(Add(ended, Add(agents, Total(SubAgentCost(known, b)))), reported)
  {
    AddingIsOrderless(ended, agents, CostReported(b));
    AddingIsOrderless(ended, agents, running);
    AddingIsOrderless(ended, agents, Total(SubAgentCost(known, b)));
  }

  lemma ExpectedSnoc(costBefore: real, bodies: seq<Body>, b: Body)
    ensures Expected(costBefore, bodies + [b]) == After(Expected(costBefore, bodies), Display(costBefore, bodies).Keys, b)
  {
    var turns := Turns(bodies);
    SubAgentCostsSnoc(costBefore, bodies, b);
    TurnsSnoc(bodies, b);
    GrowingCosts(turns, b);
    LastReportedSnoc(Last(turns), b);
    TotalsAfter(Total(TurnCosts(Init(turns))), Total(SubAgentCosts(costBefore, bodies)), LastReported(Last(turns)),
                Display(costBefore, bodies).Keys, b);
  }

  lemma KnownIsShown(costBefore: real, bodies: seq<Body>)
    ensures AsMap(Run(costBefore, bodies).tools).Keys == Display(costBefore, bodies).Keys
  {
    EditorShowsTheCalls(costBefore, bodies);
  }

  /** The totals kept are those that should be, and the reported cost is their sum. */
  ghost predicate Counts(costBefore: real, bodies: seq<Body>) {
    var s := Run(costBefore, bodies);
    KeptBy(s) == Expected(costBefore, bodies) && s.outcome.turnCost == Add(s.endedTurnsCost, s.runningTurnCost)
  }

  lemma CountsOneMore(costBefore: real, bodies: seq<Body>, b: Body)
    requires Counts(costBefore, bodies)
    ensures Counts(costBefore, bodies + [b])
  {
    RunSnoc(costBefore, bodies, b);
    StepKeepsUp(costBefore, Run(costBefore, bodies), b);
    KnownIsShown(costBefore, bodies);
    ExpectedSnoc(costBefore, bodies, b);
  }

  lemma {:induction false} EveryRunCounts(costBefore: real, bodies: seq<Body>)
    ensures Counts(costBefore, bodies)
  {
    if bodies == [] {
      assert Init(Turns(bodies)) == [];
    } else {
      EveryRunCounts(costBefore, Init(bodies));
      CountsOneMore(costBefore, Init(bodies), Last(bodies));
      InitAndLast(bodies);
    }
  }

  /** The reported cost: every turn's last report and every sub-agent's, or null when there is none. */
  lemma TurnCostIsTheSum(costBefore: real, bodies: seq<Body>)
    ensures Run(costBefore, bodies).outcome.turnCost
         == Add(Total(TurnCosts(Turns(bodies))), Total(SubAgentCosts(costBefore, bodies)))
  {
    EveryRunCounts(costBefore, bodies);
    TurnCostsSplit(Turns(bodies));
    var turns := Turns(bodies);
    AddingIsOrderless(Total(TurnCosts(Init(turns))), Total(SubAgentCosts(costBefore, bodies)), LastReported(Last(turns)));
  }

  lemma TurnCostsSplit(turns: seq<seq<Body>>)
    requires turns != []
    ensures Total(TurnCosts(turns)) == Add(Total(TurnCosts(Init(turns))), LastReported(Last(turns)))
  {
    TurnCostsSnoc(Init(turns), Last(turns));
    InitAndLast(turns);
  }

  /** Null exactly when no turn and no sub-agent reported a cost. */
  lemma TurnCostIsNullExactly(costBefore: real, bodies: seq<Body>)
    ensures Run(costBefore, bodies).outcome.turnCost == None <==>
         && (forall i :: 0 <= i < |Turns(bodies)| ==> LastReported(Turns(bodies)[i]) == None)
         && (forall i :: 0 <= i < |SubAgentCosts(costBefore, bodies)| ==> SubAgentCosts(costBefore, bodies)[i] == None)
  {
    TurnCostIsTheSum(costBefore, bodies);
    TotalIsNullExactly(TurnCosts(Turns(bodies)));
    TotalIsNullExactly(SubAgentCosts(costBefore, bodies));
    var turns := Turns(bodies);
    assert forall i :: 0 <= i < |turns| ==> TurnCosts(turns)[i] == LastReported(turns[i]);
  }

  // ── Which sub-agents are counted ──────────────────────────────────

  /** An anonymous call is named after its tool. */
  predicate MayBe(key: Option<string>, name: string, id: string) {
    key == Some(id) || (key.None? && name + "#" <= id)
  }

  /** `b` announces a call `id`, if it is not known yet. */
  predicate Names(b: CallBody, id: string) {
    match b
    case ExecutableCode(_) => "code-execution-" <= id
    case ToolExecution(key, name, _, _, _) => MayBe(key, name, id)
    case ProviderCall(key, name, _, _) => MayBe(key, if name != "" then name else "tool", id)
    case SubAgentToolExecution(subAgentId, key, name, _, _, _) => MayBe(Within(subAgentId, key), name, id)
    case Spawned(subAgentId, _) => id == SUB_AGENT + subAgentId
    case ApprovalRequired(toolCallId, subAgentId, _, _, _) => id == DecisionKey(toolCallId, subAgentId)
    case PlanProposal(toolCallId, _, _, autoApproved) => !autoApproved && id == toolCallId
    case _ => false
  }

  function IdsOf(s: State): set<string> {
    AsMap(s.tools).Keys
  }

  lemma EnsuredMayBe(s: State, key: Option<string>, name: string, caption: string, prefix: string)
    ensures MayBe(key, name, Ensuring(s, key, name, caption, prefix).id)
  {
  }

  lemma EnsuringAddsOne(s: State, key: Option<string>, name: string, caption: string, prefix: string)
    ensures var e := Ensuring(s, key, name, caption, prefix); IdsOf(e.state) == IdsOf(s) + {e.id}
  {
    var e := Ensuring(s, key, name, caption, prefix);
    if e.announce != [] {
      PutIsSet(s.tools, ToolState(e.id, name, Title(prefix, caption, name), Pending, ""));
    }
  }

  lemma {:induction false} NewestOpenIsKnown(tools: seq<ToolState>, name: string)
    ensures NewestOpen(tools, name).Some? ==> NewestOpen(tools, name).value in AsMap(tools)
  {
    if tools != [] {
      NewestOpenIsKnown(Init(tools), name);
    }
  }

  lemma ToolStepNames(s: State, key: Option<string>, name: string, progress: Progress, result: ToolResult, caption: string, prefix: string)
    ensures forall id <- IdsOf(ToolStep(s, key, name, progress, result, caption, prefix).state) - IdsOf(s) :: MayBe(key, name, id)
  {
    var resolved := if key.Some? then key else NewestOpen(s.tools, name);
    NewestOpenIsKnown(s.tools, name);
    EnsuredMayBe(s, resolved, name, caption, prefix);
    EnsuringAddsOne(s, resolved, name, caption, prefix);
    if !progress.Streaming? {
      var e := Ensuring(s, resolved, name, caption, prefix);
      var tool := AsMap(e.state.tools)[e.id];
      var (advanced, _) := Advanced(tool, if caption != "" then Title(prefix, caption, name) else tool.title, progress, result);
      PutIsSet(e.state.tools, advanced);
    }
  }

  lemma PuttingKnown(tools: seq<ToolState>, tool: ToolState)
    ensures AsMap(Put(tools, tool)).Keys == AsMap(tools).Keys + {tool.id}
  {
    PutIsSet(tools, tool);
  }

  lemma MovingNames(s: State, id: string, status: Status, content: Option<seq<string>>)
    ensures IdsOf(Moved(s, id, status, content).state) == IdsOf(s)
  {
    if id in AsMap(s.tools) {
      KeyedById(s.tools);
      PuttingKnown(s.tools, AsMap(s.tools)[id].(status := status));
    }
  }

  lemma PrintingNames(s: State, key: Option<string>, name: string, printed: bool, data: string)
    ensures IdsOf(ToolPrinted(s, key, name, printed, data).state) == IdsOf(s)
  {
    var id := if key.Some? then key else NewestOpen(s.tools, name);
    if id.Some? && id.value in AsMap(s.tools) {
      KeyedById(s.tools);
      PuttingKnown(s.tools, AsMap(s.tools)[id.value].(output := Tail(AsMap(s.tools)[id.value].output + data)));
    }
  }

  ghost predicate OnlyNamed(s: State, t: State, b: CallBody) {
    forall id <- IdsOf(t) - IdsOf(s) :: Names(b, id)
  }

  lemma ToolUseNames(s: State, b: CallBody)
    requires IsToolUse(b)
    ensures OnlyNamed(s, CallTranslated(s, b).state, b)
  {
    match b
    case ExecutableCode(code) => PuttingKnown(s.tools, ToolState("code-execution-" + Decimal(s.codeRuns + 1), "code_execution", "Code execution", InProgress, ""));
    case CodeExecutionResult(succeeded, output) =>
      MovingNames(s, "code-execution-" + Decimal(s.codeRuns), if succeeded then Completed else Broken, Some([output]));
    case ToolExecution(key, name, progress, result, caption) => ToolStepNames(s, key, name, progress, result, caption, "");
    case ProviderCall(key, name, claim, result) =>
      ToolStepNames(s, key, if name != "" then name else "tool", ClaimedProgress(claim, result), result, "", "");
    case SubAgentToolExecution(subAgentId, key, name, progress, result, description) =>
      ToolStepNames(s, Within(subAgentId, key), name, progress, result, "", description);
    case ToolOutput(key, name, printed, data) => PrintingNames(s, key, name, printed, data);
    case SubAgentToolOutput(subAgentId, key, name, printed, data) => PrintingNames(s, Within(subAgentId, key), name, printed, data);
  }

  lemma RequestNames(s: State, b: CallBody)
    requires !IsToolUse(b)
    ensures OnlyNamed(s, CallTranslated(s, b).state, b)
  {
    match b
    case Spawned(subAgentId, description) =>
      PuttingKnown(s.tools, ToolState(SUB_AGENT + subAgentId, "sub_agent", "Sub-agent: " + description, InProgress, ""));
    case Complete(subAgentId, cost, summary) =>
      var counted := if SUB_AGENT + subAgentId in AsMap(s.tools) && cost.Some?
        then CostUpdated(s.(endedTurnsCost := Add(s.endedTurnsCost, cost))) else s;
      MovingNames(counted, SUB_AGENT + subAgentId, Completed, Some([summary]));
    case Failed(subAgentId, summary) => MovingNames(s, SUB_AGENT + subAgentId, Broken, Some([summary]));
    case MergeBack(_, _) =>
    case ApprovalRequired(toolCallId, subAgentId, name, description, reasons) =>
      var key := Some(DecisionKey(toolCallId, subAgentId));
      var e := Ensuring(s, key, name, "", description);
      EnsuringAddsOne(s, key, name, "", description);
      PuttingKnown(e.state.tools, AsMap(e.state.tools)[e.id].(status := Pending));
    case ApprovalDecided(toolCallId, subAgentId, allow, reason) =>
      MovingNames(s, DecisionKey(toolCallId, subAgentId), if allow then InProgress else Broken,
                  if allow then None else Some([Denial(reason)]));
    case PlanProposal(toolCallId, _, _, _) => PuttingKnown(s.tools, ToolState(toolCallId, "plan", "Proposed plan", Pending, ""));
  }

  lemma StepNames(costBefore: real, s: State, b: Body)
    ensures forall id <- IdsOf(TranslateBody(costBefore, s, b).state) - IdsOf(s) :: b.About? && Names(b.call, id)
  {
    if b.About? {
      if IsToolUse(b.call) { ToolUseNames(s, b.call); } else { RequestNames(s, b.call); }
    } else {
      OtherStepsNameNone(costBefore, s, b);
    }
  }

  lemma OtherStepsNameNone(costBefore: real, s: State, b: Body)
    requires !b.About?
    ensures IdsOf(TranslateBody(costBefore, s, b).state) == IdsOf(s)
  {
    if b.TurnDone? {
      ClosedIs(s.tools, Completed);
    } else if b.TurnError? {
      ClosedIs(s.tools, Broken);
    } else {
      OthersAreSilent(costBefore, s, b);
    }
  }

  /** A known call was named by some event. */
  lemma {:induction false} KnownIsNamed(costBefore: real, bodies: seq<Body>, id: string)
    requires id in IdsOf(Run(costBefore, bodies))
    ensures exists i :: 0 <= i < |bodies| && bodies[i].About? && Names(bodies[i].call, id)
  {
    var before := Run(costBefore, Init(bodies));
    if id in IdsOf(before) {
      KnownIsNamed(costBefore, Init(bodies), id);
      var i :| 0 <= i < |bodies| - 1 && Init(bodies)[i].About? && Names(Init(bodies)[i].call, id);
      assert bodies[i] == Init(bodies)[i];
    } else {
      StepNames(costBefore, before, Last(bodies));
      assert id in IdsOf(Run(costBefore, bodies)) - IdsOf(before);
      assert bodies[|bodies| - 1] == Last(bodies);
    }
  }

  ghost predicate WasSpawned(bodies: seq<Body>, subAgentId: string) {
    exists i :: 0 <= i < |bodies| && bodies[i].About? && bodies[i].call.Spawned? && bodies[i].call.subAgentId == subAgentId
  }

  lemma SpawnKnows(s: State, spawned: CallBody)
    requires spawned.Spawned?
    ensures SUB_AGENT + spawned.subAgentId in IdsOf(CallTranslated(s, spawned).state)
  {
    var id := SUB_AGENT + spawned.subAgentId;
    PuttingKnown(s.tools, ToolState(id, "sub_agent", "Sub-agent: " + spawned.description, InProgress, ""));
  }

  lemma SpawningShows(costBefore: real, before: seq<Body>, spawned: CallBody, after: seq<Body>)
    requires spawned.Spawned?
    ensures SUB_AGENT + spawned.subAgentId in Display(costBefore, before + [About(spawned)] + after).Keys
  {
    RunSnoc(costBefore, before, About(spawned));
    SpawnKnows(Run(costBefore, before), spawned);
    KnownIsShown(costBefore, before + [About(spawned)]);
    CallsStayKnown(costBefore, before + [About(spawned)], after);
  }

  lemma WasSpawnedIsShown(costBefore: real, bodies: seq<Body>, subAgentId: string)
    requires WasSpawned(bodies, subAgentId)
    ensures SUB_AGENT + subAgentId in Display(costBefore, bodies).Keys
  {
    var i :| 0 <= i < |bodies| && bodies[i].About? && bodies[i].call.Spawned? && bodies[i].call.subAgentId == subAgentId;
    SpawningShows(costBefore, bodies[..i], bodies[i].call, bodies[i + 1..]);
    assert bodies == bodies[..i] + [bodies[i]] + bodies[i + 1..];
  }

  /** No tool, approval or plan goes by the sub-agent's id. */
  ghost predicate OnlySpawnNames(bodies: seq<Body>, subAgentId: string) {
    forall i :: 0 <= i < |bodies| && bodies[i].About? && Names(bodies[i].call, SUB_AGENT + subAgentId) ==> bodies[i].call.Spawned?
  }

  lemma ShownWasSpawned(costBefore: real, bodies: seq<Body>, subAgentId: string)
    requires OnlySpawnNames(bodies, subAgentId) && SUB_AGENT + subAgentId in Display(costBefore, bodies).Keys
    ensures WasSpawned(bodies, subAgentId)
  {
    var id := SUB_AGENT + subAgentId;
    KnownIsShown(costBefore, bodies);
    KnownIsNamed(costBefore, bodies, id);
    var i :| 0 <= i < |bodies| && bodies[i].About? && Names(bodies[i].call, id);
    SameAfter(SUB_AGENT, bodies[i].call.subAgentId, subAgentId);
  }

  /** Then its completion counts exactly when it was spawned before. */
  lemma SpawnedIsCounted(costBefore: real, bodies: seq<Body>, subAgentId: string)
    requires OnlySpawnNames(bodies, subAgentId)
    ensures SUB_AGENT + subAgentId in Display(costBefore, bodies).Keys <==> WasSpawned(bodies, subAgentId)
  {
    if WasSpawned(bodies, subAgentId) {
      WasSpawnedIsShown(costBefore, bodies, subAgentId);
    } else if SUB_AGENT + subAgentId in Display(costBefore, bodies).Keys {
      ShownWasSpawned(costBefore, bodies, subAgentId);
    }
  }

  /** The event at `i` is the first by which the editor knows `id`. */
  ghost predicate FirstAnnounces(costBefore: real, bodies: seq<Body>, i: nat, id: string) {
    i < |bodies| && id !in Display(costBefore, bodies[..i]).Keys && id in Display(costBefore, bodies[..i + 1]).Keys
  }

  predicate IsSpawn(b: Body) {
    b.About? && b.call.Spawned?
  }

  /** Something else than a spawn took the sub-agent's id first. */
  ghost predicate TakenByAnother(costBefore: real, bodies: seq<Body>, subAgentId: string) {
    exists i :: 0 <= i < |bodies| && FirstAnnounces(costBefore, bodies, i, SUB_AGENT + subAgentId) && !IsSpawn(bodies[i])
  }

  lemma {:induction false} ShownWasAnnounced(costBefore: real, bodies: seq<Body>, id: string) returns (i: nat)
    requires id in Display(costBefore, bodies).Keys
    ensures FirstAnnounces(costBefore, bodies, i, id)
  {
    var n := |bodies| - 1;
    assert bodies[..n + 1] == bodies && bodies[..n] == Init(bodies);
    if id in Display(costBefore, Init(bodies)).Keys {
      i := ShownWasAnnounced(costBefore, Init(bodies), id);
      assert Init(bodies)[..i] == bodies[..i] && Init(bodies)[..i + 1] == bodies[..i + 1];
    } else {
      i := n;
    }
  }

  /** A spawn announces only its own sub-agent. */
  lemma SpawnAnnouncesItsOwn(costBefore: real, bodies: seq<Body>, i: nat, subAgentId: string)
    requires FirstAnnounces(costBefore, bodies, i, SUB_AGENT + subAgentId) && IsSpawn(bodies[i])
    ensures bodies[i].call.subAgentId == subAgentId
  {
    var before, id := Run(costBefore, bodies[..i]), SUB_AGENT + subAgentId;
    assert bodies[..i + 1] == bodies[..i] + [bodies[i]];
    RunSnoc(costBefore, bodies[..i], bodies[i]);
    KnownIsShown(costBefore, bodies[..i]);
    KnownIsShown(costBefore, bodies[..i + 1]);
    StepNames(costBefore, before, bodies[i]);
    assert id in IdsOf(Run(costBefore, bodies[..i + 1])) - IdsOf(before);
    SameAfter(SUB_AGENT, bodies[i].call.subAgentId, subAgentId);
  }

  lemma AnnouncedIsShown(costBefore: real, bodies: seq<Body>, i: nat, id: string)
    requires FirstAnnounces(costBefore, bodies, i, id)
    ensures id in Display(costBefore, bodies).Keys
  {
    CallsStayKnown(costBefore, bodies[..i + 1], bodies[i + 1..]);
    SplitAt(bodies, i + 1);
  }

  lemma ShownWasSpawnedOrTaken(costBefore: real, bodies: seq<Body>, subAgentId: string)
    requires SUB_AGENT + subAgentId in Display(costBefore, bodies).Keys
    ensures WasSpawned(bodies, subAgentId) || TakenByAnother(costBefore, bodies, subAgentId)
  {
    var i := ShownWasAnnounced(costBefore, bodies, SUB_AGENT + subAgentId);
    if IsSpawn(bodies[i]) {
      SpawnAnnouncesItsOwn(costBefore, bodies, i, subAgentId);
    }
  }

  lemma TakenIsShown(costBefore: real, bodies: seq<Body>, subAgentId: string)
    requires TakenByAnother(costBefore, bodies, subAgentId)
    ensures SUB_AGENT + subAgentId in Display(costBefore, bodies).Keys
  {
    var i: nat :| i < |bodies| && FirstAnnounces(costBefore, bodies, i, SUB_AGENT + subAgentId) && !IsSpawn(bodies[i]);
    AnnouncedIsShown(costBefore, bodies, i, SUB_AGENT + subAgentId);
  }

  /**
   * A sub-agent's completion is counted exactly when it was spawned, if and only
   * if it was spawned or nothing but a spawn first announced a call of its id.
   */
  lemma CountedExactlyWhenSpawned(costBefore: real, bodies: seq<Body>, subAgentId: string)
    ensures (SUB_AGENT + subAgentId in Display(costBefore, bodies).Keys <==> WasSpawned(bodies, subAgentId))
       <==> WasSpawned(bodies, subAgentId) || !TakenByAnother(costBefore, bodies, subAgentId)
  {
    if WasSpawned(bodies, subAgentId) {
      WasSpawnedIsShown(costBefore, bodies, subAgentId);
    } else if SUB_AGENT + subAgentId in Display(costBefore, bodies).Keys {
      ShownWasSpawnedOrTaken(costBefore, bodies, subAgentId);
    } else if TakenByAnother(costBefore, bodies, subAgentId) {
      TakenIsShown(costBefore, bodies, subAgentId);
    }
  }

  /** The completions that should be counted: those of sub-agents spawned before. */
  ghost function SpawnedCosts(bodies: seq<Body>): seq<Option<real>> {
    if bodies == [] then [] else SpawnedCosts(Init(bodies)) + SpawnedCost(Init(bodies), Last(bodies))
  }

  ghost function SpawnedCost(before: seq<Body>, b: Body): seq<Option<real>> {
    if b.About? && b.call.Complete? && WasSpawned(before, b.call.subAgentId) then [b.call.cost] else []
  }

  /** No sub-agent completes whose id, never spawned, was first announced by something else. */
  ghost predicate NoneCompletesUnspawned(costBefore: real, bodies: seq<Body>) {
    bodies == [] ||
    (&& NoneCompletesUnspawned(costBefore, Init(bodies))
     && (Last(bodies).About? && Last(bodies).call.Complete? ==>
           WasSpawned(Init(bodies), Last(bodies).call.subAgentId)
           || !TakenByAnother(costBefore, Init(bodies), Last(bodies).call.subAgentId)))
  }

  lemma LastCompletion(costBefore: real, before: seq<Body>, b: Body)
    ensures var known, spawned := SubAgentCost(Display(costBefore, before).Keys, b), SpawnedCost(before, b);
      && |spawned| <= |known|
      && (known == spawned <==> |known| == |spawned|)
      && (known == spawned <==>
            (b.About? && b.call.Complete? ==>
               WasSpawned(before, b.call.subAgentId) || !TakenByAnother(costBefore, before, b.call.subAgentId)))
  {
    if b.About? && b.call.Complete? {
      CountedExactlyWhenSpawned(costBefore, before, b.call.subAgentId);
      if WasSpawned(before, b.call.subAgentId) {
        WasSpawnedIsShown(costBefore, before, b.call.subAgentId);
      }
    }
  }

  lemma SameWhenBothPartsAre<T>(a: seq<T>, x: seq<T>, b: seq<T>, y: seq<T>)
    requires |b| <= |a| && |y| <= |x|
    ensures a + x == b + y <==> a == b && x == y
  {
    if a + x == b + y {
      assert |a + x| == |b + y|;
      assert a == (a + x)[..|a|] && b == (b + y)[..|b|];
      assert x == (a + x)[|a|..] && y == (b + y)[|b|..];
    }
  }

  /** The completions counted are those of spawned sub-agents if and only if none completes unspawned under a taken id. */
  lemma {:induction false} SubAgentCostsAreOfTheSpawned(costBefore: real, bodies: seq<Body>)
    ensures |SpawnedCosts(bodies)| <= |SubAgentCosts(costBefore, bodies)|
    ensures SubAgentCosts(costBefore, bodies) == SpawnedCosts(bodies) <==> NoneCompletesUnspawned(costBefore, bodies)
  {
    if bodies != [] {
      var before, last := Init(bodies), Last(bodies);
      SubAgentCostsAreOfTheSpawned(costBefore, before);
      LastCompletion(costBefore, before, last);
      SameWhenBothPartsAre(SubAgentCosts(costBefore, before), SubAgentCost(Display(costBefore, before).Keys, last),
                           SpawnedCosts(before), SpawnedCost(before, last));
    }
  }

  lemma RunOne(costBefore: real, b: CallBody)
    ensures Run(costBefore, [About(b)]) == CallTranslated(START, b).state
  {
    assert Init([About(b)]) == [];
  }

  /** An approval of a call named like a sub-agent, then a completion: it is counted, and nothing was spawned. */
  lemma CountedWithoutSpawning(costBefore: real, approval: CallBody, subAgentId: string, c: real)
    requires approval.ApprovalRequired? && approval.subAgentId == "" && approval.toolCallId == SUB_AGENT + subAgentId
    ensures var bodies := [About(approval)] + [About(Complete(subAgentId, Some(c), ""))];
      Run(costBefore, bodies).outcome.turnCost == Some(c) && !WasSpawned(bodies, subAgentId)
  {
    RunOne(costBefore, approval);
    RunSnoc(costBefore, [About(approval)], About(Complete(subAgentId, Some(c), "")));
    ApprovalOpensItsKey(START, approval);
    CallsCostNothing(START, approval);
    CompleteCounts(CallTranslated(START, approval).state, subAgentId, c);
  }

  lemma CompleteCounts(s: State, subAgentId: string, c: real)
    requires SUB_AGENT + subAgentId in AsMap(s.tools) && KeptBy(s) == Kept(None, None)
    ensures CallTranslated(s, Complete(subAgentId, Some(c), "")).state.outcome.turnCost == Some(c)
  {
  }

  lemma SameAfter(prefix: string, a: string, b: string)
    requires prefix + a == prefix + b
    ensures a == b
  {
    assert (prefix + a)[|prefix|..] == a && (prefix + b)[|prefix|..] == b;
  }

  // ── What is never counted ─────────────────────────────────────────

  lemma {:induction false} RunFromEqual(costBefore: real, a: seq<Body>, b: seq<Body>, more: seq<Body>)
    requires Run(costBefore, a) == Run(costBefore, b)
    ensures Run(costBefore, a + more) == Run(costBefore, b + more)
  {
    if more == [] {
      assert a + more == a && b + more == b;
    } else {
      RunFromEqual(costBefore, a, b, Init(more));
      assert a + more == a + Init(more) + [Last(more)] && b + more == b + Init(more) + [Last(more)];
      RunSnoc(costBefore, a + Init(more), Last(more));
      RunSnoc(costBefore, b + Init(more), Last(more));
    }
  }

  /** Usage tagged with an operation could as well not have been sent. */
  lemma OperationsBillApart(costBefore: real, before: seq<Body>, operation: string, cost: Option<real>, after: seq<Body>)
    requires operation != ""
    ensures Run(costBefore, before + [UsageUpdate(operation, cost)] + after) == Run(costBefore, before + after)
  {
    RunSnoc(costBefore, before, UsageUpdate(operation, cost));
    RunFromEqual(costBefore, before + [UsageUpdate(operation, cost)], before, after);
  }
}
