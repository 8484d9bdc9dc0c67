/** One turn's events translated to editor updates: which tool calls are open, and what the turn cost. */
module TurnTranslation {
  import opened Prelude

  // ── Events and updates ────────────────────────────────────────────

  /** What a tool call returned: nothing, null, text, or a value with its JSON form and whether it holds an error. */
  datatype ToolResult = Undefined | Null | Words(text: string) | Structure(json: string, error: bool)

  datatype Progress = Streaming | Calling | Done | Errored

  /** What a provider's own status text says about its call. */
  datatype Claim = SaysNothing | SaysFinished | SaysFailed

  datatype Source = Source(url: string, title: string)

  datatype PlanEntry = PlanEntry(content: string, priority: string, status: string)

  /** What an event says about a tool call. An absent optional string is "", which the translator does not tell apart from it. */
  datatype CallBody =
    | ExecutableCode(code: string)
    | CodeExecutionResult(succeeded: bool, output: string)
    | ToolExecution(key: Option<string>, name: string, progress: Progress, result: ToolResult, caption: string)
    | ProviderCall(key: Option<string>, name: string, claim: Claim, result: ToolResult)
    | SubAgentToolExecution(subAgentId: string, key: Option<string>, name: string, progress: Progress, result: ToolResult, description: string)
    | ToolOutput(key: Option<string>, name: string, printed: bool, data: string)
    | SubAgentToolOutput(subAgentId: string, key: Option<string>, name: string, printed: bool, data: string)
    | Spawned(subAgentId: string, description: string)
    | Complete(subAgentId: string, cost: Option<real>, summary: string)
    | Failed(subAgentId: string, summary: string)
    | MergeBack(subAgentId: string, detail: string)
    | ApprovalRequired(toolCallId: string, subAgentId: string, name: string, description: string, reasons: seq<string>)
    | ApprovalDecided(toolCallId: string, subAgentId: string, allow: bool, reason: string)
    | PlanProposal(toolCallId: string, steps: seq<string>, plan: string, autoApproved: bool)

  datatype Body =
    | Ignored
    | UserMessage(conversationId: string)
    | Chunk(text: string)
    | Thinking(text: string)
    | Image(data: string, mimeType: Option<string>)
    | Sources(sources: seq<Source>)
    | Refusal(explanation: string)
    | About(call: CallBody)
    | UserQuestion(questionId: string)
    | TodoUpdate(items: seq<PlanEntry>)
    | PermissionMode(mode: string)
    | ContextBudget(window: int, used: int)
    | UsageUpdate(operation: string, cost: Option<real>)
    | IterationLimit
    | TurnDone(conversationId: string, refusal: bool, cost: Option<real>)
    | TurnError(message: string)

  datatype Event = Event(seqNumber: Option<int>, body: Body)

  datatype Status = Pending | InProgress | Completed | Broken

  datatype Update =
    | MessageChunk(text: string)
    | ThoughtChunk(text: string)
    | ImageChunk(data: string, mimeType: string)
    | Link(uri: string, name: string)
    | ToolCall(id: string, title: string, name: string, status: Status, content: Option<seq<string>>)
    | ToolCallUpdate(id: string, newTitle: Option<string>, newStatus: Option<Status>, content: Option<seq<string>>)
    | Plan(entries: seq<PlanEntry>)
    | Mode(mode: string)
    | Usage(used: int, size: int, cost: Option<real>)

  /** A request to the person, or word that one was answered elsewhere. */
  datatype Interaction =
    | NoInteraction
    | Approval(call: Update)
    | PlanReview(call: Update)
    | Question(questionId: string)
    | Decided(toolCallId: string)

  datatype Translated = Translated(updates: seq<Update>, interaction: Interaction)

  // ── State ─────────────────────────────────────────────────────────

  datatype ToolState = ToolState(id: string, name: string, title: string, status: Status, output: string)

  datatype Outcome = Outcome(done: bool, error: Option<string>, refusal: bool, iterationLimit: bool, conversationId: string, turnCost: Option<real>)

  /** Everything a translator keeps between events but the newest sequence number. */
  datatype State = State(
    tools: seq<ToolState>,
    linkedSources: set<string>,
    anonymousTools: nat,
    codeRuns: nat,
    contextWindow: Option<int>,
    contextUsed: Option<int>,
    endedTurnsCost: Option<real>,
    runningTurnCost: Option<real>,
    outcome: Outcome)

  const START := State([], {}, 0, 0, None, None, None, None, Outcome(false, None, false, false, "", None))

  const OUTPUT_TAIL: nat := 16_000

  const SUB_AGENT := "sub-agent/"

  /** The tools by id: the newest entry of each. */
  function AsMap(tools: seq<ToolState>): map<string, ToolState> {
    if tools == [] then map[] else AsMap(Init(tools))[Last(tools).id := Last(tools)]
  }

  /** `tool` in place of the entry with its id. */
  function Replaced(tools: seq<ToolState>, tool: ToolState): seq<ToolState> {
    if tools == [] then []
    else if Last(tools).id == tool.id then Init(tools) + [tool]
    else Replaced(Init(tools), tool) + [Last(tools)]
  }

  /** As a map keeps its entries: a known id keeps its place, a new one goes last. */
  function Put(tools: seq<ToolState>, tool: ToolState): seq<ToolState> {
    if tool.id in AsMap(tools) then Replaced(tools, tool) else tools + [tool]
  }

  lemma AsMapSnoc(front: seq<ToolState>, last: ToolState)
    ensures AsMap(front + [last]) == AsMap(front)[last.id := last]
  {
    assert Init(front + [last]) == front;
  }

  lemma {:induction false} ReplacingIsSetting(tools: seq<ToolState>, tool: ToolState)
    requires tool.id in AsMap(tools)
    ensures AsMap(Replaced(tools, tool)) == AsMap(tools)[tool.id := tool]
  {
    var front, last := Init(tools), Last(tools);
    if last.id == tool.id {
      AsMapSnoc(front, tool);
      assert AsMap(front)[tool.id := tool] == AsMap(front)[last.id := last][tool.id := tool];
    } else {
      ReplacingIsSetting(front, tool);
      AsMapSnoc(Replaced(front, tool), last);
      SettingCommutes(AsMap(front), tool.id, tool, last.id, last);
    }
  }

  lemma PutIsSet(tools: seq<ToolState>, tool: ToolState)
    ensures AsMap(Put(tools, tool)) == AsMap(tools)[tool.id := tool]
  {
    if tool.id in AsMap(tools) {
      ReplacingIsSetting(tools, tool);
    } else {
      AsMapSnoc(tools, tool);
    }
  }

  lemma SettingCommutes<T>(m: map<string, T>, a: string, x: T, b: string, y: T)
    requires a != b
    ensures m[a := x][b := y] == m[b := y][a := x]
  {
  }

  lemma {:induction false} KeyedById(tools: seq<ToolState>)
    ensures forall id | id in AsMap(tools) :: AsMap(tools)[id].id == id
  {
    if tools != [] {
      KeyedById(Init(tools));
    }
  }

  predicate IsOpen(status: Status) {
    status.Pending? || status.InProgress?
  }

  function NewestOpen(tools: seq<ToolState>, name: string): Option<string> {
    if tools == [] then None
    else if Last(tools).name == name && IsOpen(Last(tools).status) then Some(Last(tools).id)
    else NewestOpen(Init(tools), name)
  }

  function Decimal(n: nat): string {
    var digit := ['0' + (n % 10) as char];
    if n < 10 then digit else Decimal(n / 10) + digit
  }

  function Add(a: Option<real>, b: Option<real>): Option<real> {
    if a.None? then b else if b.None? then a else Some(a.value + b.value)
  }

  function Tail(text: string): string {
    if |text| <= OUTPUT_TAIL then text else text[|text| - OUTPUT_TAIL..]
  }

  // ── One event ─────────────────────────────────────────────────────

  datatype Step = Step(state: State, translated: Translated)

  function Quietly(s: State): Step { Step(s, Translated([], NoInteraction)) }

  function Sending(s: State, updates: seq<Update>): Step { Step(s, Translated(updates, NoInteraction)) }

  function Title(prefix: string, caption: string, name: string): string {
    (if prefix != "" then prefix + ": " else "") + (if caption != "" then caption else name)
  }

  datatype Ensured = Ensured(state: State, id: string, announce: seq<Update>)

  /** The call an event refers to, announced if it is new. */
  function Ensuring(s: State, key: Option<string>, name: string, caption: string, prefix: string): (e: Ensured)
    ensures e.id in AsMap(e.state.tools) && AsMap(e.state.tools)[e.id].id == e.id
    ensures e.announce == [] ==> e.state == s
    ensures key.Some? ==> e.id == key.value
  {
    KeyedById(s.tools);
    var id := if key.Some? then key.value else name + "#" + Decimal(s.anonymousTools);
    if id in AsMap(s.tools) then Ensured(s, id, [])
    else
      var title := Title(prefix, caption, name);
      var tool := ToolState(id, name, title, Pending, "");
      PutIsSet(s.tools, tool);
      Ensured(
        s.(tools := Put(s.tools, tool),
           anonymousTools := if key.None? then s.anonymousTools + 1 else s.anonymousTools),
        id,
        [ToolCall(id, title, name, Pending, None)])
  }

  function ResultContent(result: ToolResult, output: string): Option<seq<string>> {
    match result
    case Words(text) => Some([text])
    case Structure(json, _) => Some([json])
    case _ => if output != "" then Some([output]) else None
  }

  predicate IsFailure(result: ToolResult) {
    result.Structure? && result.error
  }

  /** The announced call as the event leaves it, and the update saying so. */
  function Advanced(tool: ToolState, title: string, progress: Progress, result: ToolResult): (ToolState, Update) {
    var newTitle := if title != tool.title then Some(title) else None;
    var status :=
      if progress.Calling? then InProgress
      else if progress.Errored? || IsFailure(result) then Broken
      else Completed;
    var content := if progress.Calling? then None else ResultContent(result, tool.output);
    (tool.(title := title, status := status), ToolCallUpdate(tool.id, newTitle, Some(status), content))
  }

  /** The call an event refers to, as the event leaves it, and the update saying so. */
  function AdvancedBy(e: Ensured, name: string, progress: Progress, result: ToolResult, caption: string, prefix: string): (ToolState, Update)
    requires e.id in AsMap(e.state.tools)
  {
    var tool := AsMap(e.state.tools)[e.id];
    Advanced(tool, if caption != "" then Title(prefix, caption, name) else tool.title, progress, result)
  }

  /** What a tool's event comes to: the call ensured, then advanced. */
  function EnsuredThenAdvanced(e: Ensured, name: string, progress: Progress, result: ToolResult, caption: string, prefix: string): Step
    requires e.id in AsMap(e.state.tools)
  {
    if progress.Streaming? then Sending(e.state, e.announce)
    else
      var (tool, update) := AdvancedBy(e, name, progress, result, caption, prefix);
      Sending(e.state.(tools := Put(e.state.tools, tool)), e.announce + [update])
  }

  function ToolStep(s: State, key: Option<string>, name: string, progress: Progress, result: ToolResult, caption: string, prefix: string): Step {
    var resolved := if key.Some? then key else NewestOpen(s.tools, name);
    EnsuredThenAdvanced(Ensuring(s, resolved, name, caption, prefix), name, progress, result, caption, prefix)
  }

  function ToolPrinted(s: State, key: Option<string>, name: string, printed: bool, data: string): Step {
    var id := if key.Some? then key else NewestOpen(s.tools, name);
    if !printed || data == "" || id.None? || id.value == "" || id.value !in AsMap(s.tools) then Quietly(s)
    else
      var tool := AsMap(s.tools)[id.value];
      var output := Tail(tool.output + data);
      Sending(s.(tools := Put(s.tools, tool.(output := output))), [ToolCallUpdate(tool.id, None, None, Some([output]))])
  }

  function Within(subAgentId: string, key: Option<string>): Option<string> {
    if key.None? then None else Some(subAgentId + "/" + key.value)
  }

  function CodeRun(s: State, code: string): Step {
    var id := "code-execution-" + Decimal(s.codeRuns + 1);
    Sending(
      s.(codeRuns := s.codeRuns + 1, tools := Put(s.tools, ToolState(id, "code_execution", "Code execution", InProgress, ""))),
      [ToolCall(id, "Code execution", "code_execution", InProgress, Some([code]))])
  }

  /** `id`'s call in a new status, if it was ever announced. */
  function Moved(s: State, id: string, status: Status, content: Option<seq<string>>): Step {
    if id !in AsMap(s.tools) then Quietly(s)
    else
      Sending(s.(tools := Put(s.tools, AsMap(s.tools)[id].(status := status))), [ToolCallUpdate(id, None, Some(status), content)])
  }

  function Spawn(s: State, subAgentId: string, description: string): Step {
    var id, title := SUB_AGENT + subAgentId, "Sub-agent: " + description;
    if id in AsMap(s.tools) then Quietly(s)
    else Sending(s.(tools := Put(s.tools, ToolState(id, "sub_agent", title, InProgress, ""))),
                 [ToolCall(id, title, "sub_agent", InProgress, None)])
  }

  function CostUpdated(s: State): State {
    s.(outcome := s.outcome.(turnCost := Add(s.endedTurnsCost, s.runningTurnCost)))
  }

  function Completes(s: State, subAgentId: string, cost: Option<real>, summary: string): Step {
    var id := SUB_AGENT + subAgentId;
    var counted :=
      if id in AsMap(s.tools) && cost.Some? then CostUpdated(s.(endedTurnsCost := Add(s.endedTurnsCost, cost))) else s;
    Moved(counted, id, Completed, Some([summary]))
  }

  function DecisionKey(toolCallId: string, subAgentId: string): string {
    if subAgentId != "" then subAgentId + "/" + toolCallId else toolCallId
  }

  /** The call asked about, pending, and the question. */
  function AskedFor(e: Ensured, reasons: seq<string>): Step
    requires e.id in AsMap(e.state.tools)
  {
    var tool := AsMap(e.state.tools)[e.id].(status := Pending);
    var content := if reasons != [] then Some(reasons) else None;
    Step(e.state.(tools := Put(e.state.tools, tool)),
         Translated(e.announce, Approval(ToolCallUpdate(tool.id, Some(tool.title), Some(Pending), content))))
  }

  function Approving(s: State, toolCallId: string, subAgentId: string, name: string, description: string, reasons: seq<string>): Step {
    AskedFor(Ensuring(s, Some(DecisionKey(toolCallId, subAgentId)), name, "", description), reasons)
  }

  function Denial(reason: string): string {
    if reason != "" then "Denied: " + reason else "Denied."
  }

  function Deciding(s: State, toolCallId: string, subAgentId: string, allow: bool, reason: string): Step {
    var key := DecisionKey(toolCallId, subAgentId);
    var moved :=
      if allow then Moved(s, key, InProgress, None)
      else Moved(s, key, Broken, Some([Denial(reason)]));
    Step(moved.state, Translated(moved.translated.updates, Decided(key)))
  }

  function Entries(steps: seq<string>): seq<PlanEntry> {
    seq(|steps|, i requires 0 <= i < |steps| => PlanEntry(steps[i], "medium", "pending"))
  }

  function Propose(s: State, id: string, steps: seq<string>, plan: string, autoApproved: bool): Step {
    if autoApproved then Sending(s, [Plan(Entries(steps))])
    else
      var title := "Proposed plan";
      Step(s.(tools := Put(s.tools, ToolState(id, "plan", title, Pending, ""))),
           Translated([Plan(Entries(steps)), ToolCall(id, title, "", Pending, Some([plan]))],
                      PlanReview(ToolCallUpdate(id, Some(title), Some(Pending), Some([plan])))))
  }

  function SourceLink(source: Source): Update {
    Link(source.url, if source.title != "" then source.title else source.url)
  }

  function Linked(s: State, sources: seq<Source>): Step {
    if sources == [] then Quietly(s)
    else
      var before := Linked(s, Init(sources));
      var source := Last(sources);
      if source.url == "" || source.url in before.state.linkedSources then before
      else Sending(before.state.(linkedSources := before.state.linkedSources + {source.url}), before.translated.updates + [SourceLink(source)])
  }

  function SessionCost(costBefore: real, s: State): Option<real> {
    if s.outcome.turnCost.None? then None else Some(costBefore + s.outcome.turnCost.value)
  }

  function UsageOf(costBefore: real, s: State): seq<Update> {
    if s.contextWindow.None? || s.contextUsed.None? then []
    else [Usage(s.contextUsed.value, s.contextWindow.value, SessionCost(costBefore, s))]
  }

  predicate IsClosed(tool: ToolState, status: Status) {
    IsOpen(tool.status) && !(SUB_AGENT <= tool.id && status.Completed?)
  }

  function Shut(tool: ToolState, status: Status): ToolState {
    if IsClosed(tool, status) then tool.(status := status) else tool
  }

  function Closing(tool: ToolState, status: Status, content: Option<seq<string>>): seq<Update> {
    if IsClosed(tool, status) then [ToolCallUpdate(tool.id, None, Some(status), content)] else []
  }

  function Closed(tools: seq<ToolState>, status: Status): (closed: seq<ToolState>)
    ensures |closed| == |tools|
  {
    if tools == [] then [] else Closed(Init(tools), status) + [Shut(Last(tools), status)]
  }

  function Closings(tools: seq<ToolState>, status: Status, content: Option<seq<string>>): seq<Update> {
    if tools == [] then [] else Closings(Init(tools), status, content) + Closing(Last(tools), status, content)
  }

  function Finish(s: State, status: Status, content: Option<seq<string>>): Step {
    Sending(s.(tools := Closed(s.tools, status)), Closings(s.tools, status, content))
  }

  /** The running total after a report: no report leaves it. */
  function Reported(s: State, cost: Option<real>): State {
    if cost.Some? then s.(runningTurnCost := cost) else s
  }

  /** A turn's last report joins the ended turns, and the running total starts over. */
  function TurnClosed(s: State, cost: Option<real>): State {
    var r := Reported(s, cost);
    CostUpdated(r.(endedTurnsCost := Add(r.endedTurnsCost, r.runningTurnCost), runningTurnCost := None))
  }

  function Ended(s: State, conversationId: string, refusal: bool, cost: Option<real>): State {
    var outcome := s.outcome.(
      done := true,
      conversationId := if conversationId != "" then conversationId else s.outcome.conversationId,
      refusal := refusal || s.outcome.refusal);
    TurnClosed(s.(outcome := outcome), cost)
  }

  function Said(s: State, text: string): Step {
    if text == "" then Quietly(s) else Sending(s, [MessageChunk(text)])
  }

  function RefusalText(explanation: string): seq<Update> {
    if explanation == "" then [] else [MessageChunk("\n\n(Refused: " + explanation + ")")]
  }

  function Spent(costBefore: real, s: State, operation: string, cost: Option<real>): Step {
    if operation != "" then Quietly(s)
    else
      var updated := CostUpdated(Reported(s, cost));
      Sending(updated, UsageOf(costBefore, updated))
  }

  function ClaimedProgress(claim: Claim, result: ToolResult): Progress {
    if result.Undefined? && claim.SaysNothing? then Calling
    else if claim.SaysFailed? || IsFailure(result) then Errored
    else Done
  }

  function CallTranslated(s: State, b: CallBody): Step {
    match b
    case ExecutableCode(code) => CodeRun(s, code)
    case CodeExecutionResult(succeeded, output) =>
      Moved(s, "code-execution-" + Decimal(s.codeRuns), if succeeded then Completed else Broken, Some([output]))
    case ToolExecution(key, name, progress, result, caption) => ToolStep(s, key, name, progress, result, caption, "")
    case ProviderCall(key, name, claim, result) =>
      ToolStep(s, key, if name != "" then name else "tool", ClaimedProgress(claim, result), result, "", "")
    case SubAgentToolExecution(subAgentId, key, name, progress, result, description) =>
      ToolStep(s, Within(subAgentId, key), name, progress, result, "", description)
    case ToolOutput(key, name, printed, data) => ToolPrinted(s, key, name, printed, data)
    case SubAgentToolOutput(subAgentId, key, name, printed, data) => ToolPrinted(s, Within(subAgentId, key), name, printed, data)
    case Spawned(subAgentId, description) => Spawn(s, subAgentId, description)
    case Complete(subAgentId, cost, summary) => Completes(s, subAgentId, cost, summary)
    case Failed(subAgentId, summary) => Moved(s, SUB_AGENT + subAgentId, Broken, Some([summary]))
    case MergeBack(subAgentId, detail) =>
      if SUB_AGENT + subAgentId in AsMap(s.tools)
      then Sending(s, [ToolCallUpdate(SUB_AGENT + subAgentId, None, None, Some([detail]))])
      else Quietly(s)
    case ApprovalRequired(toolCallId, subAgentId, name, description, reasons) =>
      Approving(s, toolCallId, subAgentId, name, description, reasons)
    case ApprovalDecided(toolCallId, subAgentId, allow, reason) => Deciding(s, toolCallId, subAgentId, allow, reason)
    case PlanProposal(toolCallId, steps, plan, autoApproved) => Propose(s, toolCallId, steps, plan, autoApproved)
  }

  function TranslateBody(costBefore: real, s: State, b: Body): Step {
    match b
    case Ignored => Quietly(s)
    case UserMessage(conversationId) =>
      if conversationId != "" then Quietly(s.(outcome := s.outcome.(conversationId := conversationId))) else Quietly(s)
    case Chunk(text) => Said(s, text)
    case Thinking(text) => if text == "" then Quietly(s) else Sending(s, [ThoughtChunk(text)])
    case Image(data, mimeType) =>
      if data == "" then Quietly(s) else Sending(s, [ImageChunk(data, if mimeType.Some? then mimeType.value else "image/png")])
    case Sources(sources) => Linked(s, sources)
    case Refusal(explanation) =>
      Sending(s.(outcome := s.outcome.(refusal := true)), RefusalText(explanation))
    case About(call) => CallTranslated(s, call)
    case UserQuestion(questionId) => Step(s, Translated([], Question(questionId)))
    case TodoUpdate(items) => Sending(s, [Plan(items)])
    case PermissionMode(mode) => Sending(s, [Mode(mode)])
    case ContextBudget(window, used) =>
      var updated := s.(contextWindow := Some(window), contextUsed := Some(used));
      Sending(updated, UsageOf(costBefore, updated))
    case UsageUpdate(operation, cost) => Spent(costBefore, s, operation, cost)
    case IterationLimit => Quietly(s.(outcome := s.outcome.(iterationLimit := true)))
    case TurnDone(conversationId, refusal, cost) => Finish(Ended(s, conversationId, refusal, cost), Completed, None)
    case TurnError(message) => Finish(s.(outcome := s.outcome.(error := Some(message))), Broken, None)
  }

  /** Code, tools and their output; not sub-agents, approvals and plans. */
  predicate IsToolUse(b: CallBody) {
    b.ExecutableCode? || b.CodeExecutionResult? || b.ToolExecution? || b.ProviderCall? || b.SubAgentToolExecution?
    || b.ToolOutput? || b.SubAgentToolOutput?
  }

  predicate IsShown(b: Body) {
    b.UserMessage? || b.Chunk? || b.Thinking? || b.Image? || b.Sources? || b.Refusal? || b.TodoUpdate? || b.PermissionMode?
  }

  function Newer(last: Option<int>, seqNumber: Option<int>): Option<int> {
    if last.None? || (seqNumber.Some? && seqNumber.value > last.value) then seqNumber else last
  }

  method CloseTools(tools: seq<ToolState>, status: Status, content: Option<seq<string>>)
    returns (closed: seq<ToolState>, updates: seq<Update>)
    ensures closed == Closed(tools, status)
    ensures updates == Closings(tools, status, content)
  {
    updates, closed := [], [];
    for i := 0 to |tools|
      invariant closed == Closed(tools[..i], status)
      invariant updates == Closings(tools[..i], status, content)
    {
      var tool := tools[i];
      assert Init(tools[..i + 1]) == tools[..i] && Last(tools[..i + 1]) == tool;
      if IsClosed(tool, status) {
        updates := updates + [ToolCallUpdate(tool.id, None, Some(status), content)];
        tool := tool.(status := status);
      }
      closed := closed + [tool];
    }
    assert tools[..|tools|] == tools;
  }

  // ── The translator ────────────────────────────────────────────────

  class TurnTranslator {
    const costBeforeTurn: real
    var tools: seq<ToolState>
    var linkedSources: set<string>
    var anonymousTools: nat
    var codeRuns: nat
    var contextWindow: Option<int>
    var contextUsed: Option<int>
    var endedTurnsCost: Option<real>
    var runningTurnCost: Option<real>
    var outcome: Outcome
    var lastSeq: Option<int>

    function Now(): State
      reads this
    {
      State(tools, linkedSources, anonymousTools, codeRuns, contextWindow, contextUsed, endedTurnsCost, runningTurnCost, outcome)
    }

    constructor (costBefore: real)
      ensures Now() == START && lastSeq == None && costBeforeTurn == costBefore
    {
      costBeforeTurn := costBefore;
      tools, linkedSources, anonymousTools, codeRuns := [], {}, 0, 0;
      contextWindow, contextUsed, endedTurnsCost, runningTurnCost := None, None, None, None;
      outcome, lastSeq := Outcome(false, None, false, false, "", None), None;
    }

    method EnsureTool(key: Option<string>, name: string, caption: string, prefix: string) returns (id: string, announce: seq<Update>)
      modifies this
      ensures Ensuring(old(Now()), key, name, caption, prefix) == Ensured(Now(), id, announce)
      ensures lastSeq == old(lastSeq)
    {
      id := if key.Some? then key.value else name + "#" + Decimal(anonymousTools);
      if id in AsMap(tools) {
        return id, [];
      }
      if key.None? {
        anonymousTools := anonymousTools + 1;
      }
      var title := Title(prefix, caption, name);
      tools := Put(tools, ToolState(id, name, title, Pending, ""));
      announce := [ToolCall(id, title, name, Pending, None)];
    }

    method NewestOpenTool(name: string) returns (newest: Option<string>)
      ensures newest == NewestOpen(tools, name)
    {
      newest := None;
      for i := 0 to |tools|
        invariant newest == NewestOpen(tools[..i], name)
      {
        assert Init(tools[..i + 1]) == tools[..i];
        if tools[i].name == name && IsOpen(tools[i].status) {
          newest := Some(tools[i].id);
        }
      }
      assert tools[..|tools|] == tools;
    }

    method ToolEvent(key: Option<string>, name: string, progress: Progress, result: ToolResult, caption: string, prefix: string)
      returns (translated: Translated)
      modifies this
      ensures ToolStep(old(Now()), key, name, progress, result, caption, prefix) == Step(Now(), translated)
      ensures lastSeq == old(lastSeq)
    {
      var resolved := key;
      if key.None? {
        resolved := NewestOpenTool(name);
      }
      var id, announce := EnsureTool(resolved, name, caption, prefix);
      if progress.Streaming? {
        return Translated(announce, NoInteraction);
      }
      var tool := AsMap(tools)[id];
      var update := ToolCallUpdate(id, None, None, None);
      if caption != "" && Title(prefix, caption, name) != tool.title {
        tool := tool.(title := Title(prefix, caption, name));
        update := update.(newTitle := Some(tool.title));
      }
      if progress.Calling? {
        tool := tool.(status := InProgress);
        update := update.(newStatus := Some(InProgress));
      } else {
        var failed := progress.Errored? || IsFailure(result);
        tool := tool.(status := if failed then Broken else Completed);
        update := update.(newStatus := Some(tool.status), content := ResultContent(result, tool.output));
      }
      tools := Put(tools, tool);
      translated := Translated(announce + [update], NoInteraction);
    }

    method ToolOutput(key: Option<string>, name: string, printed: bool, data: string) returns (translated: Translated)
      modifies this
      ensures ToolPrinted(old(Now()), key, name, printed, data) == Step(Now(), translated)
      ensures lastSeq == old(lastSeq)
    {
      translated := Translated([], NoInteraction);
      if !printed || data == "" {
        return;
      }
      var id := key;
      if key.None? {
        id := NewestOpenTool(name);
      }
      if id.None? || id.value == "" || id.value !in AsMap(tools) {
        return;
      }
      var tool := AsMap(tools)[id.value];
      tool := tool.(output := Tail(tool.output + data));
      tools := Put(tools, tool);
      translated := Translated([ToolCallUpdate(tool.id, None, None, Some([tool.output]))], NoInteraction);
    }

    method Links(sources: seq<Source>) returns (translated: Translated)
      modifies this
      ensures Linked(old(Now()), sources) == Step(Now(), translated)
      ensures lastSeq == old(lastSeq)
    {
      var links: seq<Update> := [];
      for i := 0 to |sources|
        invariant Linked(old(Now()), sources[..i]) == Sending(Now(), links)
        invariant lastSeq == old(lastSeq)
      {
        assert Init(sources[..i + 1]) == sources[..i];
        var source := sources[i];
        if source.url != "" && source.url !in linkedSources {
          linkedSources := linkedSources + {source.url};
          links := links + [SourceLink(source)];
        }
      }
      assert sources[..|sources|] == sources;
      translated := Translated(links, NoInteraction);
    }

    method SetStatus(id: string, status: Status, content: Option<seq<string>>) returns (translated: Translated)
      modifies this
      ensures Moved(old(Now()), id, status, content) == Step(Now(), translated)
      ensures lastSeq == old(lastSeq)
    {
      if id !in AsMap(tools) {
        return Translated([], NoInteraction);
      }
      tools := Put(tools, AsMap(tools)[id].(status := status));
      translated := Translated([ToolCallUpdate(id, None, Some(status), content)], NoInteraction);
    }

    method UpdateCost()
      modifies this
      ensures Now() == CostUpdated(old(Now())) && lastSeq == old(lastSeq)
    {
      var turnCost :=
        if endedTurnsCost.None? && runningTurnCost.None? then None
        else Some((if endedTurnsCost.Some? then endedTurnsCost.value else 0.0)
                + (if runningTurnCost.Some? then runningTurnCost.value else 0.0));
      outcome := outcome.(turnCost := turnCost);
    }

    method CompleteSubAgent(subAgentId: string, cost: Option<real>, summary: string) returns (translated: Translated)
      modifies this
      ensures Completes(old(Now()), subAgentId, cost, summary) == Step(Now(), translated)
      ensures lastSeq == old(lastSeq)
    {
      var id := SUB_AGENT + subAgentId;
      if id !in AsMap(tools) {
        return Translated([], NoInteraction);
      }
      if cost.Some? {
        endedTurnsCost := Some((if endedTurnsCost.Some? then endedTurnsCost.value else 0.0) + cost.value);
        UpdateCost();
      }
      translated := SetStatus(id, Completed, Some([summary]));
    }

    method Approve(toolCallId: string, subAgentId: string, name: string, description: string, reasons: seq<string>)
      returns (translated: Translated)
      modifies this
      ensures Approving(old(Now()), toolCallId, subAgentId, name, description, reasons) == Step(Now(), translated)
      ensures lastSeq == old(lastSeq)
    {
      ghost var e := Ensuring(Now(), Some(DecisionKey(toolCallId, subAgentId)), name, "", description);
      var id, announce := EnsureTool(Some(DecisionKey(toolCallId, subAgentId)), name, "", description);
      assert e == Ensured(Now(), id, announce);
      var tool := AsMap(tools)[id].(status := Pending);
      var call := ToolCallUpdate(tool.id, Some(tool.title), Some(Pending), if reasons != [] then Some(reasons) else None);
      translated := Translated(announce, Approval(call));
      tools := Put(tools, tool);
    }

    method Decide(toolCallId: string, subAgentId: string, allow: bool, reason: string) returns (translated: Translated)
      modifies this
      ensures Deciding(old(Now()), toolCallId, subAgentId, allow, reason) == Step(Now(), translated)
      ensures lastSeq == old(lastSeq)
    {
      var key := DecisionKey(toolCallId, subAgentId);
      var moved: Translated;
      if allow {
        moved := SetStatus(key, InProgress, None);
      } else {
        moved := SetStatus(key, Broken, Some([Denial(reason)]));
      }
      translated := moved.(interaction := Decided(key));
    }

    /** Closes what is open: at the end of a turn, or with "Cancelled." when the turn was stopped. */
    method FinishOpenTools(status: Status, content: Option<seq<string>>) returns (translated: Translated)
      modifies this
      ensures Finish(old(Now()), status, content) == Step(Now(), translated)
      ensures lastSeq == old(lastSeq)
    {
      var closed, updates := CloseTools(tools, status, content);
      tools := closed;
      translated := Translated(updates, NoInteraction);
    }

    method ExecuteCode(code: string) returns (translated: Translated)
      modifies this
      ensures CodeRun(old(Now()), code) == Step(Now(), translated)
      ensures lastSeq == old(lastSeq)
    {
      codeRuns := codeRuns + 1;
      var id := "code-execution-" + Decimal(codeRuns);
      tools := Put(tools, ToolState(id, "code_execution", "Code execution", InProgress, ""));
      translated := Translated([ToolCall(id, "Code execution", "code_execution", InProgress, Some([code]))], NoInteraction);
    }

    method SpawnSubAgent(subAgentId: string, description: string) returns (translated: Translated)
      modifies this
      ensures Spawn(old(Now()), subAgentId, description) == Step(Now(), translated)
      ensures lastSeq == old(lastSeq)
    {
      var id, title := SUB_AGENT + subAgentId, "Sub-agent: " + description;
      if id in AsMap(tools) {
        return Translated([], NoInteraction);
      }
      tools := Put(tools, ToolState(id, "sub_agent", title, InProgress, ""));
      translated := Translated([ToolCall(id, title, "sub_agent", InProgress, None)], NoInteraction);
    }

    method ProposePlan(id: string, steps: seq<string>, plan: string, autoApproved: bool) returns (translated: Translated)
      modifies this
      ensures Propose(old(Now()), id, steps, plan, autoApproved) == Step(Now(), translated)
      ensures lastSeq == old(lastSeq)
    {
      if autoApproved {
        return Translated([Plan(Entries(steps))], NoInteraction);
      }
      var title := "Proposed plan";
      tools := Put(tools, ToolState(id, "plan", title, Pending, ""));
      translated := Translated(
        [Plan(Entries(steps)), ToolCall(id, title, "", Pending, Some([plan]))],
        PlanReview(ToolCallUpdate(id, Some(title), Some(Pending), Some([plan]))));
    }

    method CloseTurnCost(cost: Option<real>)
      modifies this
      ensures Now() == TurnClosed(old(Now()), cost) && lastSeq == old(lastSeq)
    {
      if cost.Some? {
        runningTurnCost := cost;
      }
      if runningTurnCost.Some? {
        endedTurnsCost := Some((if endedTurnsCost.Some? then endedTurnsCost.value else 0.0) + runningTurnCost.value);
        runningTurnCost := None;
      }
      UpdateCost();
    }

    method EndTurn(conversationId: string, refusal: bool, cost: Option<real>) returns (translated: Translated)
      modifies this
      ensures Finish(Ended(old(Now()), conversationId, refusal, cost), Completed, None) == Step(Now(), translated)
      ensures lastSeq == old(lastSeq)
    {
      outcome := outcome.(done := true);
      if conversationId != "" {
        outcome := outcome.(conversationId := conversationId);
      }
      if refusal {
        outcome := outcome.(refusal := true);
      }
      CloseTurnCost(cost);
      translated := FinishOpenTools(Completed, None);
    }

    method ReportUsage(operation: string, cost: Option<real>) returns (translated: Translated)
      modifies this
      ensures Spent(costBeforeTurn, old(Now()), operation, cost) == Step(Now(), translated)
      ensures lastSeq == old(lastSeq)
    {
      if operation != "" {
        return Translated([], NoInteraction);
      }
      if cost.Some? {
        runningTurnCost := cost;
      }
      UpdateCost();
      translated := Translated(UsageOf(costBeforeTurn, Now()), NoInteraction);
    }

    /** Sub-agents, approvals and plans. */
    method TranslateRequest(b: CallBody) returns (translated: Translated)
      requires !IsToolUse(b)
      modifies this
      ensures CallTranslated(old(Now()), b) == Step(Now(), translated)
      ensures lastSeq == old(lastSeq)
    {
      translated := Translated([], NoInteraction);
      match b
      case Spawned(subAgentId, description) => translated := SpawnSubAgent(subAgentId, description);
      case Complete(subAgentId, cost, summary) => translated := CompleteSubAgent(subAgentId, cost, summary);
      case Failed(subAgentId, summary) => translated := SetStatus(SUB_AGENT + subAgentId, Broken, Some([summary]));
      case MergeBack(subAgentId, detail) =>
        if SUB_AGENT + subAgentId in AsMap(tools) {
          translated := Translated([ToolCallUpdate(SUB_AGENT + subAgentId, None, None, Some([detail]))], NoInteraction);
        }
      case ApprovalRequired(toolCallId, subAgentId, name, description, reasons) =>
        translated := Approve(toolCallId, subAgentId, name, description, reasons);
      case ApprovalDecided(toolCallId, subAgentId, allow, reason) =>
        translated := Decide(toolCallId, subAgentId, allow, reason);
      case PlanProposal(toolCallId, steps, plan, autoApproved) =>
        translated := ProposePlan(toolCallId, steps, plan, autoApproved);
    }

    method TranslateCall(b: CallBody) returns (translated: Translated)
      modifies this
      ensures CallTranslated(old(Now()), b) == Step(Now(), translated)
      ensures lastSeq == old(lastSeq)
    {
      translated := Translated([], NoInteraction);
      match b
      case ExecutableCode(code) => translated := ExecuteCode(code);
      case CodeExecutionResult(succeeded, output) =>
        translated := SetStatus("code-execution-" + Decimal(codeRuns), if succeeded then Completed else Broken, Some([output]));
      case ToolExecution(key, name, progress, result, caption) =>
        translated := ToolEvent(key, name, progress, result, caption, "");
      case ProviderCall(key, name, claim, result) =>
        translated := ToolEvent(key, if name != "" then name else "tool", ClaimedProgress(claim, result), result, "", "");
      case SubAgentToolExecution(subAgentId, key, name, progress, result, description) =>
        translated := ToolEvent(Within(subAgentId, key), name, progress, result, "", description);
      case ToolOutput(key, name, printed, data) => translated := ToolOutput(key, name, printed, data);
      case SubAgentToolOutput(subAgentId, key, name, printed, data) =>
        translated := ToolOutput(Within(subAgentId, key), name, printed, data);
      case _ =>
        translated := TranslateRequest(b);
    }

    /** What the editor shows as it is: text, images, links, plans. */
    method Show(b: Body) returns (translated: Translated)
      requires IsShown(b)
      modifies this
      ensures TranslateBody(costBeforeTurn, old(Now()), b) == Step(Now(), translated)
      ensures lastSeq == old(lastSeq)
    {
      translated := Translated([], NoInteraction);
      match b
      case UserMessage(conversationId) =>
        if conversationId != "" {
          outcome := outcome.(conversationId := conversationId);
        }
      case Chunk(text) => translated := Said(Now(), text).translated;
      case Thinking(text) =>
        if text != "" {
          translated := Translated([ThoughtChunk(text)], NoInteraction);
        }
      case Image(data, mimeType) =>
        if data != "" {
          translated := Translated([ImageChunk(data, if mimeType.Some? then mimeType.value else "image/png")], NoInteraction);
        }
      case Sources(sources) => translated := Links(sources);
      case Refusal(explanation) =>
        outcome := outcome.(refusal := true);
        translated := Translated(RefusalText(explanation), NoInteraction);
      case TodoUpdate(items) => translated := Translated([Plan(items)], NoInteraction);
      case PermissionMode(mode) => translated := Translated([Mode(mode)], NoInteraction);
    }

    /** One event: the newest sequence number is kept, then the body is translated. */
    method Translate(event: Event) returns (translated: Translated)
      modifies this
      ensures TranslateBody(costBeforeTurn, old(Now()), event.body) == Step(Now(), translated)
      ensures lastSeq == Newer(old(lastSeq), event.seqNumber)
    {
      if event.seqNumber.Some? && (lastSeq.None? || event.seqNumber.value > lastSeq.value) {
        lastSeq := event.seqNumber;
      }
      translated := Translated([], NoInteraction);
      if IsShown(event.body) {
        translated := Show(event.body);
        return;
      }
      match event.body
      case Ignored =>
      case About(call) => translated := TranslateCall(call);
      case UserQuestion(questionId) => translated := Translated([], Question(questionId));
      case ContextBudget(window, used) =>
        contextWindow, contextUsed := Some(window), Some(used);
        translated := Translated(UsageOf(costBeforeTurn, Now()), NoInteraction);
      case UsageUpdate(operation, cost) => translated := ReportUsage(operation, cost);
      case IterationLimit => outcome := outcome.(iterationLimit := true);
      case TurnDone(conversationId, refusal, cost) => translated := EndTurn(conversationId, refusal, cost);
      case TurnError(message) =>
        outcome := outcome.(error := Some(message));
        translated := FinishOpenTools(Broken, None);
    }
  }
}
