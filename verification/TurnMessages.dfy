/** What reaches the editor besides tool calls: text, thoughts, images, plans, modes and totals; and what the turn came to. */
module TurnMessages {
  import opened Prelude
  import opened TurnTranslation
  import opened ToolLifecycle
  import opened TurnCost

  // ── Text, thoughts, images, plans and modes ───────────────────────

  predicate IsPlain(u: Update) {
    u.MessageChunk? || u.ThoughtChunk? || u.ImageChunk? || u.Plan? || u.Mode?
  }

  function PlainPart(u: Update): seq<Update> {
    if IsPlain(u) then [u] else []
  }

  function PlainIn(updates: seq<Update>): seq<Update> {
    FlatMap(PlainPart, updates)
  }

  function PendingEntries(steps: seq<string>): seq<PlanEntry> {
    if steps == [] then [] else PendingEntries(Init(steps)) + [PlanEntry(Last(steps), "medium", "pending")]
  }

  /** What an event says to the person, as the editor should get it. */
  function PlainOf(b: Body): seq<Update> {
    match b
    case Chunk(text) => if text == "" then [] else [MessageChunk(text)]
    case Thinking(text) => if text == "" then [] else [ThoughtChunk(text)]
    case Refusal(explanation) => if explanation == "" then [] else [MessageChunk("\n\n(Refused: " + explanation + ")")]
    case Image(data, mimeType) =>
      if data == "" then [] else [ImageChunk(data, match mimeType case Some(t) => t case None => "image/png")]
    case TodoUpdate(items) => [Plan(items)]
    case PermissionMode(mode) => [Mode(mode)]
    case About(PlanProposal(_, steps, _, _)) => [Plan(PendingEntries(steps))]
    case _ => []
  }

  lemma PlainAppends(a: seq<Update>, b: seq<Update>)
    ensures PlainIn(a + b) == PlainIn(a) + PlainIn(b)
  {
    FlatMapAppends(PlainPart, a, b);
  }

  lemma PlainOne(u: Update)
    ensures PlainIn([u]) == PlainPart(u)
  {
    FlatMapOne(PlainPart, u);
  }

  lemma {:induction false} EntriesArePending(steps: seq<string>)
    ensures Entries(steps) == PendingEntries(steps)
  {
    if steps != [] {
      EntriesArePending(Init(steps));
      assert Entries(steps) == Entries(Init(steps)) + [PlanEntry(Last(steps), "medium", "pending")];
    }
  }

  ghost predicate OnlyCalls(updates: seq<Update>) {
    forall i :: 0 <= i < |updates| ==> updates[i].ToolCall? || updates[i].ToolCallUpdate?
  }

  lemma {:induction false} CallsAreNotPlain(updates: seq<Update>)
    requires OnlyCalls(updates)
    ensures PlainIn(updates) == [] && UsageIn(updates) == []
  {
    if updates != [] {
      assert forall i :: 0 <= i < |updates| - 1 ==> Init(updates)[i] == updates[i];
      assert Last(updates) == updates[|updates| - 1];
      CallsAreNotPlain(Init(updates));
    }
  }

  lemma OnlyCallsSnoc(updates: seq<Update>, u: Update)
    requires OnlyCalls(updates) && (u.ToolCall? || u.ToolCallUpdate?)
    ensures OnlyCalls(updates + [u])
  {
  }

  lemma EnsuringSendsOnlyCalls(s: State, key: Option<string>, name: string, caption: string, prefix: string)
    ensures OnlyCalls(Ensuring(s, key, name, caption, prefix).announce)
  {
  }

  lemma ToolStepSendsOnlyCalls(s: State, key: Option<string>, name: string, progress: Progress, result: ToolResult, caption: string, prefix: string)
    ensures OnlyCalls(Sent(ToolStep(s, key, name, progress, result, caption, prefix).translated))
  {
    var e := Ensuring(s, if key.Some? then key else NewestOpen(s.tools, name), name, caption, prefix);
    EnsuringSendsOnlyCalls(s, if key.Some? then key else NewestOpen(s.tools, name), name, caption, prefix);
    ToolStepSends(s, key, name, progress, result, caption, prefix);
    if !progress.Streaming? {
      OnlyCallsSnoc(e.announce, AdvancedBy(e, name, progress, result, caption, prefix).1);
    }
  }

  lemma MovingSendsOnlyCalls(s: State, id: string, status: Status, content: Option<seq<string>>)
    ensures OnlyCalls(Sent(Moved(s, id, status, content).translated))
  {
    NothingMore(Moved(s, id, status, content).translated.updates);
  }

  lemma ApprovingSends(s: State, toolCallId: string, subAgentId: string, name: string, description: string, reasons: seq<string>)
    ensures var t := Approving(s, toolCallId, subAgentId, name, description, reasons).translated;
      && t.updates == Ensuring(s, Some(DecisionKey(toolCallId, subAgentId)), name, "", description).announce
      && t.interaction.Approval? && t.interaction.call.ToolCallUpdate?
  {
  }

  lemma ApprovingSendsOnlyCalls(s: State, toolCallId: string, subAgentId: string, name: string, description: string, reasons: seq<string>)
    ensures OnlyCalls(Sent(Approving(s, toolCallId, subAgentId, name, description, reasons).translated))
  {
    var t := Approving(s, toolCallId, subAgentId, name, description, reasons).translated;
    ApprovingSends(s, toolCallId, subAgentId, name, description, reasons);
    EnsuringSendsOnlyCalls(s, Some(DecisionKey(toolCallId, subAgentId)), name, "", description);
    OnlyCallsSnoc(t.updates, t.interaction.call);
  }

  lemma ToolUseSendsOnlyCalls(s: State, b: CallBody)
    requires IsToolUse(b)
    ensures OnlyCalls(Sent(CallTranslated(s, b).translated))
  {
    match b
    case ExecutableCode(code) => NothingMore(CodeRun(s, code).translated.updates);
    case CodeExecutionResult(succeeded, output) =>
      MovingSendsOnlyCalls(s, "code-execution-" + Decimal(s.codeRuns), if succeeded then Completed else Broken, Some([output]));
    case ToolExecution(key, name, progress, result, caption) => ToolStepSendsOnlyCalls(s, key, name, progress, result, caption, "");
    case ProviderCall(key, name, claim, result) =>
      ToolStepSendsOnlyCalls(s, key, if name != "" then name else "tool", ClaimedProgress(claim, result), result, "", "");
    case SubAgentToolExecution(subAgentId, key, name, progress, result, description) =>
      ToolStepSendsOnlyCalls(s, Within(subAgentId, key), name, progress, result, "", description);
    case ToolOutput(key, name, printed, data) => NothingMore(ToolPrinted(s, key, name, printed, data).translated.updates);
    case SubAgentToolOutput(subAgentId, key, name, printed, data) =>
      NothingMore(ToolPrinted(s, Within(subAgentId, key), name, printed, data).translated.updates);
  }

  lemma DecidingSendsOnlyCalls(s: State, decision: CallBody)
    requires decision.ApprovalDecided?
    ensures OnlyCalls(Sent(CallTranslated(s, decision).translated))
  {
    DecidedSendsTheMove(s, decision.toolCallId, decision.subAgentId, decision.allow, decision.reason);
    MovingSendsOnlyCalls(s, DecisionKey(decision.toolCallId, decision.subAgentId), if decision.allow then InProgress else Broken,
                         if decision.allow then None else Some([Denial(decision.reason)]));
  }

  lemma RequestSendsOnlyCalls(s: State, b: CallBody)
    requires !IsToolUse(b) && !b.PlanProposal?
    ensures OnlyCalls(Sent(CallTranslated(s, b).translated))
  {
    match b
    case Spawned(_, _) => NothingMore(CallTranslated(s, b).translated.updates);
    case Complete(subAgentId, cost, summary) =>
      var counted := if SUB_AGENT + subAgentId in AsMap(s.tools) && cost.Some?
        then CostUpdated(s.(endedTurnsCost := Add(s.endedTurnsCost, cost))) else s;
      MovingSendsOnlyCalls(counted, SUB_AGENT + subAgentId, Completed, Some([summary]));
    case Failed(subAgentId, summary) => MovingSendsOnlyCalls(s, SUB_AGENT + subAgentId, Broken, Some([summary]));
    case MergeBack(_, _) => NothingMore(CallTranslated(s, b).translated.updates);
    case ApprovalRequired(toolCallId, subAgentId, name, description, reasons) =>
      ApprovingSendsOnlyCalls(s, toolCallId, subAgentId, name, description, reasons);
    case ApprovalDecided(_, _, _, _) => DecidingSendsOnlyCalls(s, b);
  }

  lemma CallsSendOnlyCalls(s: State, b: CallBody)
    requires !b.PlanProposal?
    ensures OnlyCalls(Sent(CallTranslated(s, b).translated))
  {
    if IsToolUse(b) { ToolUseSendsOnlyCalls(s, b); } else { RequestSendsOnlyCalls(s, b); }
  }

  lemma ProposalSends(s: State, b: CallBody)
    requires b.PlanProposal?
    ensures var t := CallTranslated(s, b).translated;
      && Sent(t) == [Plan(Entries(b.steps))] + Sent(t)[1..] && OnlyCalls(Sent(t)[1..])
  {
  }

  lemma PlanThenCalls(plan: Update, calls: seq<Update>)
    requires plan.Plan? && OnlyCalls(calls)
    ensures PlainIn([plan] + calls) == [plan] && UsageIn([plan] + calls) == []
  {
    PlainOne(plan);
    UsageOne(plan);
    PlainAppends([plan], calls);
    UsageAppends([plan], calls);
    CallsAreNotPlain(calls);
  }

  lemma ProposalIsPlain(s: State, b: CallBody)
    requires b.PlanProposal?
    ensures PlainIn(Sent(CallTranslated(s, b).translated)) == PlainOf(About(b))
    ensures UsageIn(Sent(CallTranslated(s, b).translated)) == []
  {
    EntriesArePending(b.steps);
    ProposalSends(s, b);
    PlanThenCalls(Plan(Entries(b.steps)), Sent(CallTranslated(s, b).translated)[1..]);
  }

  lemma {:induction false} LinksAreNotPlain(updates: seq<Update>)
    requires forall i :: 0 <= i < |updates| ==> updates[i].Link?
    ensures PlainIn(updates) == [] && UsageIn(updates) == []
  {
    if updates != [] {
      assert forall i :: 0 <= i < |updates| - 1 ==> Init(updates)[i] == updates[i];
      assert Last(updates) == updates[|updates| - 1];
      LinksAreNotPlain(Init(updates));
    }
  }

  lemma LinkingIsNotPlain(s: State, sources: seq<Source>)
    ensures PlainIn(Sent(Linked(s, sources).translated)) == [] && UsageIn(Sent(Linked(s, sources).translated)) == []
  {
    LinkingIsFaithful(s, sources);
    NothingMore(Linked(s, sources).translated.updates);
    LinksAreNotPlain(Linked(s, sources).translated.updates);
  }

  lemma {:induction false} ClosingsSendOnlyCalls(tools: seq<ToolState>, status: Status, content: Option<seq<string>>)
    ensures OnlyCalls(Closings(tools, status, content))
  {
    if tools != [] {
      ClosingsSendOnlyCalls(Init(tools), status, content);
    }
  }

  lemma FinishingIsNotPlain(s: State, status: Status)
    ensures PlainIn(Sent(Finish(s, status, None).translated)) == [] && UsageIn(Sent(Finish(s, status, None).translated)) == []
  {
    ClosingsSendOnlyCalls(s.tools, status, None);
    NothingMore(Closings(s.tools, status, None));
    CallsAreNotPlain(Closings(s.tools, status, None));
  }

  /** Events that send what they say and nothing else. */
  predicate IsSaying(b: Body) {
    !TouchesTools(b) && !b.Sources? && !b.ContextBudget? && !b.UsageUpdate?
  }

  lemma SayingSends(costBefore: real, s: State, b: Body)
    requires IsSaying(b)
    ensures Sent(TranslateBody(costBefore, s, b).translated) == PlainOf(b)
  {
    match b
    case Ignored =>
    case UserMessage(_) =>
    case Chunk(_) =>
    case Thinking(_) =>
    case Image(_, _) =>
    case Refusal(_) =>
    case UserQuestion(_) =>
    case TodoUpdate(_) =>
    case PermissionMode(_) =>
    case IterationLimit =>
  }

  lemma SaidIsPlain(b: Body)
    requires IsSaying(b)
    ensures PlainIn(PlainOf(b)) == PlainOf(b) && UsageIn(PlainOf(b)) == []
  {
    if PlainOf(b) != [] {
      assert PlainOf(b) == [PlainOf(b)[0]];
      PlainOne(PlainOf(b)[0]);
      UsageOne(PlainOf(b)[0]);
    }
  }

  lemma UsageIsNotPlain(costBefore: real, s: State)
    ensures PlainIn(UsageOf(costBefore, s)) == [] && UsageIn(UsageOf(costBefore, s)) == UsageOf(costBefore, s)
  {
    var updates := UsageOf(costBefore, s);
    if updates != [] {
      PlainOne(updates[0]);
      UsageOne(updates[0]);
      assert updates == [updates[0]];
    }
  }

  lemma TotalsSend(costBefore: real, s: State, b: Body)
    requires b.ContextBudget? || b.UsageUpdate?
    ensures Sent(TranslateBody(costBefore, s, b).translated) == UsageDue(costBefore, s, b)
  {
    NothingMore(TranslateBody(costBefore, s, b).translated.updates);
  }

  lemma TotalsAreNotPlain(costBefore: real, s: State, b: Body)
    requires b.ContextBudget? || b.UsageUpdate?
    ensures PlainIn(Sent(TranslateBody(costBefore, s, b).translated)) == []
    ensures UsageIn(Sent(TranslateBody(costBefore, s, b).translated)) == UsageDue(costBefore, s, b)
  {
    TotalsSend(costBefore, s, b);
    UsageIsNotPlain(costBefore, TranslateBody(costBefore, s, b).state);
  }

  lemma StepSaysPlain(costBefore: real, s: State, b: Body)
    ensures PlainIn(Sent(TranslateBody(costBefore, s, b).translated)) == PlainOf(b)
  {
    match b
    case About(call) =>
      if call.PlanProposal? {
        ProposalIsPlain(s, call);
      } else {
        CallsSendOnlyCalls(s, call);
        CallsAreNotPlain(Sent(CallTranslated(s, call).translated));
      }
    case Sources(sources) => LinkingIsNotPlain(s, sources);
    case TurnDone(conversationId, refusal, cost) => FinishingIsNotPlain(Ended(s, conversationId, refusal, cost), Completed);
    case TurnError(message) => FinishingIsNotPlain(s.(outcome := s.outcome.(error := Some(message))), Broken);
    case ContextBudget(_, _) => TotalsAreNotPlain(costBefore, s, b);
    case UsageUpdate(_, _) => TotalsAreNotPlain(costBefore, s, b);
    case _ =>
      SayingSends(costBefore, s, b);
      SaidIsPlain(b);
  }

  /** Over every run, the text, thoughts, images, plans and modes the editor gets are those of the events, in their order. */
  lemma {:induction false} EverythingSaidIsSent(costBefore: real, bodies: seq<Body>)
    ensures PlainIn(Log(costBefore, bodies)) == FlatMap(PlainOf, bodies)
  {
    if bodies != [] {
      var s := Run(costBefore, Init(bodies));
      EverythingSaidIsSent(costBefore, Init(bodies));
      StepSaysPlain(costBefore, s, Last(bodies));
      PlainAppends(Log(costBefore, Init(bodies)), Sent(TranslateBody(costBefore, s, Last(bodies)).translated));
    }
  }

  // ── Totals ────────────────────────────────────────────────────────

  function UsagePart(u: Update): seq<Update> {
    if u.Usage? then [u] else []
  }

  function UsageIn(updates: seq<Update>): seq<Update> {
    FlatMap(UsagePart, updates)
  }

  lemma UsageAppends(a: seq<Update>, b: seq<Update>)
    ensures UsageIn(a + b) == UsageIn(a) + UsageIn(b)
  {
    FlatMapAppends(UsagePart, a, b);
  }

  lemma UsageOne(u: Update)
    ensures UsageIn([u]) == UsagePart(u)
  {
    FlatMapOne(UsagePart, u);
  }

  datatype Budget = Budget(used: int, window: int)

  /** The newest context budget. */
  function LastBudget(bodies: seq<Body>): Option<Budget> {
    if bodies == [] then None
    else if Last(bodies).ContextBudget? then Some(Budget(Last(bodies).used, Last(bodies).window))
    else LastBudget(Init(bodies))
  }

  /** What this prompt's turns and sub-agents reported. */
  function ReportedCost(costBefore: real, bodies: seq<Body>): Option<real> {
    Add(Total(TurnCosts(Turns(bodies))), Total(SubAgentCosts(costBefore, bodies)))
  }

  function OnTop(costBefore: real, cost: Option<real>): Option<real> {
    if cost.None? then None else Some(costBefore + cost.value)
  }

  /** What the session cost so far. */
  function SessionTotal(costBefore: real, bodies: seq<Body>): Option<real> {
    OnTop(costBefore, ReportedCost(costBefore, bodies))
  }

  /** A total is due with every budget, and with every report of the turn itself once there is one. */
  predicate IsDue(b: Body) {
    b.ContextBudget? || (b.UsageUpdate? && b.operation == "")
  }

  function UsagesOf(costBefore: real, bodies: seq<Body>): seq<Update> {
    if bodies == [] then []
    else
      UsagesOf(costBefore, Init(bodies))
      + (match LastBudget(bodies)
         case Some(budget) => if IsDue(Last(bodies)) then [Usage(budget.used, budget.window, SessionTotal(costBefore, bodies))] else []
         case None => [])
  }

  ghost predicate KnowsBudget(s: State, budget: Option<Budget>) {
    match budget
    case None => s.contextWindow == None && s.contextUsed == None
    case Some(b) => s.contextWindow == Some(b.window) && s.contextUsed == Some(b.used)
  }

  lemma {:induction false} LinkingKeepsBudget(s: State, sources: seq<Source>)
    ensures Linked(s, sources).state.contextWindow == s.contextWindow && Linked(s, sources).state.contextUsed == s.contextUsed
    ensures Linked(s, sources).state.outcome == s.outcome
  {
    if sources != [] {
      LinkingKeepsBudget(s, Init(sources));
    }
  }

  lemma CallsKeepBudget(s: State, b: CallBody)
    ensures var t := CallTranslated(s, b).state; t.contextWindow == s.contextWindow && t.contextUsed == s.contextUsed
  {
    match b
    case ExecutableCode(_) =>
    case CodeExecutionResult(_, _) =>
    case ToolExecution(_, _, _, _, _) =>
    case ProviderCall(_, _, _, _) =>
    case SubAgentToolExecution(_, _, _, _, _, _) =>
    case ToolOutput(_, _, _, _) =>
    case SubAgentToolOutput(_, _, _, _, _) =>
    case Spawned(_, _) =>
    case Complete(_, _, _) =>
    case Failed(_, _) =>
    case MergeBack(_, _) =>
    case ApprovalRequired(_, _, _, _, _) =>
    case ApprovalDecided(_, _, _, _) =>
    case PlanProposal(_, _, _, _) =>
  }

  lemma BudgetAfterStep(costBefore: real, s: State, b: Body)
    requires !b.ContextBudget?
    ensures var t := TranslateBody(costBefore, s, b).state; t.contextWindow == s.contextWindow && t.contextUsed == s.contextUsed
  {
    match b
    case About(call) => CallsKeepBudget(s, call);
    case Sources(sources) => LinkingKeepsBudget(s, sources);
    case Ignored =>
    case UserMessage(_) =>
    case Chunk(_) =>
    case Thinking(_) =>
    case Image(_, _) =>
    case Refusal(_) =>
    case UserQuestion(_) =>
    case TodoUpdate(_) =>
    case PermissionMode(_) =>
    case UsageUpdate(_, _) =>
    case IterationLimit =>
    case TurnDone(_, _, _) =>
    case TurnError(_) =>
  }

  lemma {:induction false} BudgetIsKnown(costBefore: real, bodies: seq<Body>)
    ensures KnowsBudget(Run(costBefore, bodies), LastBudget(bodies))
  {
    if bodies != [] {
      BudgetIsKnown(costBefore, Init(bodies));
      if !Last(bodies).ContextBudget? {
        BudgetAfterStep(costBefore, Run(costBefore, Init(bodies)), Last(bodies));
      }
    }
  }

  /** The one total a due event sends, from the state it leaves. */
  function UsageDue(costBefore: real, s: State, b: Body): seq<Update> {
    if IsDue(b) then UsageOf(costBefore, TranslateBody(costBefore, s, b).state) else []
  }

  lemma StepSendsUsage(costBefore: real, s: State, b: Body)
    ensures UsageIn(Sent(TranslateBody(costBefore, s, b).translated)) == UsageDue(costBefore, s, b)
  {
    match b
    case About(call) =>
      if call.PlanProposal? {
        ProposalIsPlain(s, call);
      } else {
        CallsSendOnlyCalls(s, call);
        CallsAreNotPlain(Sent(CallTranslated(s, call).translated));
      }
    case Sources(sources) => LinkingIsNotPlain(s, sources);
    case TurnDone(conversationId, refusal, cost) => FinishingIsNotPlain(Ended(s, conversationId, refusal, cost), Completed);
    case TurnError(message) => FinishingIsNotPlain(s.(outcome := s.outcome.(error := Some(message))), Broken);
    case ContextBudget(_, _) => TotalsAreNotPlain(costBefore, s, b);
    case UsageUpdate(_, _) => TotalsAreNotPlain(costBefore, s, b);
    case _ =>
      SayingSends(costBefore, s, b);
      SaidIsPlain(b);
  }

  lemma CostIsReported(costBefore: real, bodies: seq<Body>)
    ensures Run(costBefore, bodies).outcome.turnCost == ReportedCost(costBefore, bodies)
  {
    TurnCostIsTheSum(costBefore, bodies);
  }

  lemma SessionCostIs(costBefore: real, bodies: seq<Body>)
    ensures SessionCost(costBefore, Run(costBefore, bodies)) == SessionTotal(costBefore, bodies)
  {
    CostIsReported(costBefore, bodies);
    CostOnTop(costBefore, Run(costBefore, bodies), ReportedCost(costBefore, bodies));
  }

  lemma CostOnTop(costBefore: real, s: State, reported: Option<real>)
    requires s.outcome.turnCost == reported
    ensures SessionCost(costBefore, s) == OnTop(costBefore, reported)
  {
  }

  lemma UsageOfRun(costBefore: real, bodies: seq<Body>)
    ensures UsageOf(costBefore, Run(costBefore, bodies))
         == match LastBudget(bodies)
            case Some(budget) => [Usage(budget.used, budget.window, SessionTotal(costBefore, bodies))]
            case None => []
  {
    BudgetIsKnown(costBefore, bodies);
    SessionCostIs(costBefore, bodies);
  }

  /** Over every run, every total sent shows the newest budget with what the session cost up to then, one for each event it is due with. */
  lemma {:induction false} EveryTotalIsSent(costBefore: real, bodies: seq<Body>)
    ensures UsageIn(Log(costBefore, bodies)) == UsagesOf(costBefore, bodies)
  {
    if bodies != [] {
      var s := Run(costBefore, Init(bodies));
      EveryTotalIsSent(costBefore, Init(bodies));
      StepSendsUsage(costBefore, s, Last(bodies));
      UsageOfRun(costBefore, bodies);
      UsageAppends(Log(costBefore, Init(bodies)), Sent(TranslateBody(costBefore, s, Last(bodies)).translated));
    }
  }

  // ── What the turn came to ─────────────────────────────────────────

  predicate AnyDone(bodies: seq<Body>) {
    bodies != [] && (Last(bodies).TurnDone? || AnyDone(Init(bodies)))
  }

  predicate AnyRefusal(bodies: seq<Body>) {
    bodies != [] && (Last(bodies).Refusal? || (Last(bodies).TurnDone? && Last(bodies).refusal) || AnyRefusal(Init(bodies)))
  }

  predicate AnyLimit(bodies: seq<Body>) {
    bodies != [] && (Last(bodies).IterationLimit? || AnyLimit(Init(bodies)))
  }

  function LastError(bodies: seq<Body>): Option<string> {
    if bodies == [] then None else if Last(bodies).TurnError? then Some(Last(bodies).message) else LastError(Init(bodies))
  }

  /** The conversation as an event names it, "" when it does not. */
  function NamedBy(b: Body): string {
    match b
    case UserMessage(conversationId) => conversationId
    case TurnDone(conversationId, _, _) => conversationId
    case _ => ""
  }

  function LastConversation(bodies: seq<Body>): string {
    if bodies == [] then "" else if NamedBy(Last(bodies)) != "" then NamedBy(Last(bodies)) else LastConversation(Init(bodies))
  }

  ghost predicate CameTo(o: Outcome, bodies: seq<Body>) {
    && (o.done <==> AnyDone(bodies)) && (o.refusal <==> AnyRefusal(bodies)) && (o.iterationLimit <==> AnyLimit(bodies))
    && o.error == LastError(bodies) && o.conversationId == LastConversation(bodies)
  }

  /** All of an outcome but its cost. */
  ghost predicate SameButCost(o: Outcome, p: Outcome) {
    o == p.(turnCost := o.turnCost)
  }

  lemma ToolUseKeepsOutcome(s: State, b: CallBody)
    requires IsToolUse(b)
    ensures CallTranslated(s, b).state.outcome == s.outcome
  {
    match b
    case ExecutableCode(_) =>
    case CodeExecutionResult(_, _) =>
    case ToolExecution(_, _, _, _, _) =>
    case ProviderCall(_, _, _, _) =>
    case SubAgentToolExecution(_, _, _, _, _, _) =>
    case ToolOutput(_, _, _, _) =>
    case SubAgentToolOutput(_, _, _, _, _) =>
  }

  lemma RequestKeepsOutcome(s: State, b: CallBody)
    requires !IsToolUse(b)
    ensures SameButCost(CallTranslated(s, b).state.outcome, s.outcome)
  {
    match b
    case Spawned(_, _) =>
    case Complete(_, _, _) =>
    case Failed(_, _) =>
    case MergeBack(_, _) =>
    case ApprovalRequired(_, _, _, _, _) =>
    case ApprovalDecided(_, _, _, _) =>
    case PlanProposal(_, _, _, _) =>
  }

  lemma CallsKeepOutcome(s: State, b: CallBody)
    ensures SameButCost(CallTranslated(s, b).state.outcome, s.outcome)
  {
    if IsToolUse(b) { ToolUseKeepsOutcome(s, b); } else { RequestKeepsOutcome(s, b); }
  }

  /** What one event makes of an outcome, its cost apart. */
  ghost predicate Moves(o: Outcome, b: Body, p: Outcome) {
    && (p.done <==> o.done || b.TurnDone?)
    && (p.refusal <==> o.refusal || b.Refusal? || (b.TurnDone? && b.refusal))
    && (p.iterationLimit <==> o.iterationLimit || b.IterationLimit?)
    && p.error == (if b.TurnError? then Some(b.message) else o.error)
    && p.conversationId == (if NamedBy(b) != "" then NamedBy(b) else o.conversationId)
  }

  lemma OutcomeAfterStep(costBefore: real, s: State, b: Body)
    ensures Moves(s.outcome, b, TranslateBody(costBefore, s, b).state.outcome)
  {
    match b
    case About(call) => CallsKeepOutcome(s, call);
    case Sources(sources) => LinkingKeepsBudget(s, sources);
    case Ignored =>
    case UserMessage(_) =>
    case Chunk(_) =>
    case Thinking(_) =>
    case Image(_, _) =>
    case Refusal(_) =>
    case UserQuestion(_) =>
    case TodoUpdate(_) =>
    case PermissionMode(_) =>
    case ContextBudget(_, _) =>
    case UsageUpdate(_, _) =>
    case IterationLimit =>
    case TurnDone(_, _, _) =>
    case TurnError(_) =>
  }

  /** Over every run, the turn came to what its events say: done, its last error, refused, at its limit, and in which conversation. */
  lemma MovingComesTo(o: Outcome, bodies: seq<Body>, p: Outcome)
    requires bodies != [] && CameTo(o, Init(bodies)) && Moves(o, Last(bodies), p)
    ensures CameTo(p, bodies)
  {
  }

  lemma {:induction false} OutcomeIsOfTheEvents(costBefore: real, bodies: seq<Body>)
    ensures CameTo(Run(costBefore, bodies).outcome, bodies)
  {
    if bodies != [] {
      OutcomeIsOfTheEvents(costBefore, Init(bodies));
      OutcomeAfterStep(costBefore, Run(costBefore, Init(bodies)), Last(bodies));
      MovingComesTo(Run(costBefore, Init(bodies)).outcome, bodies, Run(costBefore, bodies).outcome);
    }
  }
}
