/** What each event does to the calls an editor shows, and what its updates carry. */
module TurnShown {
  import opened Prelude
  import opened TurnTranslation
  import opened ToolLifecycle
  import opened LiveOutput

  // ── The calls as a plain table ────────────────────────────────────

  function CodeId(n: nat): string {
    "code-execution-" + Decimal(n)
  }

  /** How many code runs there were. */
  function CodeRuns(bodies: seq<Body>): nat {
    if bodies == [] then 0
    else CodeRuns(Init(bodies)) + if Last(bodies).About? && Last(bodies).call.ExecutableCode? then 1 else 0
  }

  function Marked(view: map<string, Shown>, id: string, status: Status): map<string, Shown> {
    if id in view then view[id := Shown(view[id].title, status)] else view
  }

  function ToolShown(view: map<string, Shown>, key: string, title: string, progress: Progress, result: ToolResult, caption: string): map<string, Shown> {
    view[key := ShownAfter(key in view, if key in view then view[key] else Shown("", Pending), progress, result, caption, title)]
  }

  /** The event names its call, if it is about one. */
  predicate NamesItsCall(b: CallBody) {
    match b
    case ToolExecution(key, _, _, _, _) => key.Some?
    case ProviderCall(key, _, _, _) => key.Some?
    case SubAgentToolExecution(_, key, _, _, _, _) => key.Some?
    case _ => true
  }

  /** What one event about a call makes of the calls shown. */
  function ShownStep(view: map<string, Shown>, codeRuns: nat, b: CallBody): map<string, Shown>
    requires NamesItsCall(b)
  {
    match b
    case ExecutableCode(_) => view[CodeId(codeRuns + 1) := Shown("Code execution", InProgress)]
    case CodeExecutionResult(succeeded, _) => Marked(view, CodeId(codeRuns), if succeeded then Completed else Broken)
    case ToolExecution(key, name, progress, result, caption) => 
      ToolShown(view, key.value, if caption == "" then name else caption, progress, result, caption)
    case ProviderCall(key, name, claim, result) =>
      ToolShown(view, key.value, if name == "" then "tool" else name, ClaimedProgress(claim, result), result, "")
    case SubAgentToolExecution(subAgentId, key, name, progress, result, description) =>
      ToolShown(view, subAgentId + "/" + key.value, if description == "" then name else description + ": " + name, progress, result, "")
    case ToolOutput(_, _, _, _) => view
    case SubAgentToolOutput(_, _, _, _, _) => view
    case Spawned(subAgentId, description) =>
      if "sub-agent/" + subAgentId in view then view else view["sub-agent/" + subAgentId := Shown("Sub-agent: " + description, InProgress)]
    case Complete(subAgentId, _, _) => Marked(view, "sub-agent/" + subAgentId, Completed)
    case Failed(subAgentId, _) => Marked(view, "sub-agent/" + subAgentId, Broken)
    case MergeBack(_, _) => view
    case ApprovalRequired(toolCallId, subAgentId, name, description, _) =>
      var key := if subAgentId == "" then toolCallId else subAgentId + "/" + toolCallId;
      view[key := Shown(if key in view then view[key].title else if description == "" then name else description + ": " + name, Pending)]
    case ApprovalDecided(toolCallId, subAgentId, allow, _) =>
      Marked(view, if subAgentId == "" then toolCallId else subAgentId + "/" + toolCallId, if allow then InProgress else Broken)
    case PlanProposal(toolCallId, _, _, autoApproved) =>
      if autoApproved then view else view[toolCallId := Shown("Proposed plan", Pending)]
  }

  lemma MovingMarks(s: State, id: string, status: Status, content: Option<seq<string>>)
    ensures View(Moved(s, id, status, content).state.tools) == Marked(View(s.tools), id, status)
  {
    if id in AsMap(s.tools) {
      KeyedById(s.tools);
      ViewPut(s.tools, AsMap(s.tools)[id].(status := status));
    }
  }

  lemma PrintingShowsNothing(s: State, key: Option<string>, name: string, printed: bool, data: string)
    ensures View(ToolPrinted(s, key, name, printed, data).state.tools) == View(s.tools)
  {
    var id := if key.Some? then key else NewestOpen(s.tools, name);
    if printed && data != "" && id.Some? && id.value != "" && id.value in AsMap(s.tools) {
      var tool := AsMap(s.tools)[id.value];
      KeyedById(s.tools);
      ViewPut(s.tools, tool.(output := Tail(tool.output + data)));
      SettingSame(View(s.tools), id.value);
    }
  }

  lemma ApprovingShows(s: State, key: string, name: string, description: string, reasons: seq<string>)
    ensures var view, e := View(s.tools), Ensuring(s, Some(key), name, "", description);
      View(AskedFor(e, reasons).state.tools)
      == view[key := Shown(if key in view then view[key].title else if description == "" then name else description + ": " + name, Pending)]
  {
    var e := Ensuring(s, Some(key), name, "", description);
    var ensured := View(e.state.tools)[key];
    TitleIs("", name, description);
    EnsuringShows(s, key, name, "", description);
    ViewPut(e.state.tools, AsMap(e.state.tools)[e.id].(status := Pending));
    SettingTwice(View(s.tools), key, ensured, Shown(ensured.title, Pending));
  }

  lemma TitleIs(caption: string, name: string, prefix: string)
    ensures Title("", caption, name) == if caption == "" then name else caption
    ensures Title(prefix, "", name) == if prefix == "" then name else prefix + ": " + name
  {
  }

  lemma ToolUseShows(s: State, b: CallBody)
    requires IsToolUse(b) && NamesItsCall(b)
    ensures View(CallTranslated(s, b).state.tools) == ShownStep(View(s.tools), s.codeRuns, b)
  {
    match b
    case ExecutableCode(code) => ViewPut(s.tools, ToolState(CodeId(s.codeRuns + 1), "code_execution", "Code execution", InProgress, ""));
    case CodeExecutionResult(succeeded, output) =>
      MovingMarks(s, CodeId(s.codeRuns), if succeeded then Completed else Broken, Some([output]));
    case ToolExecution(key, name, progress, result, caption) =>
      TitleIs(caption, name, "");
      ToolStepShows(s, key.value, name, progress, result, caption, "");
    case ProviderCall(key, name, claim, result) =>
      TitleIs("", if name != "" then name else "tool", "");
      ToolStepShows(s, key.value, if name != "" then name else "tool", ClaimedProgress(claim, result), result, "", "");
    case SubAgentToolExecution(subAgentId, key, name, progress, result, description) =>
      TitleIs("", name, description);
      ToolStepShows(s, subAgentId + "/" + key.value, name, progress, result, "", description);
    case ToolOutput(key, name, printed, data) => PrintingShowsNothing(s, key, name, printed, data);
    case SubAgentToolOutput(subAgentId, key, name, printed, data) =>
      PrintingShowsNothing(s, Within(subAgentId, key), name, printed, data);
  }

  lemma CompletingMarks(s: State, subAgentId: string, cost: Option<real>, summary: string)
    ensures View(Completes(s, subAgentId, cost, summary).state.tools) == Marked(View(s.tools), SUB_AGENT + subAgentId, Completed)
  {
    var counted := if SUB_AGENT + subAgentId in AsMap(s.tools) && cost.Some?
      then CostUpdated(s.(endedTurnsCost := Add(s.endedTurnsCost, cost))) else s;
    MovingMarks(counted, SUB_AGENT + subAgentId, Completed, Some([summary]));
  }

  lemma DecidingMarks(s: State, b: CallBody)
    requires b.ApprovalDecided?
    ensures View(CallTranslated(s, b).state.tools)
         == Marked(View(s.tools), DecisionKey(b.toolCallId, b.subAgentId), if b.allow then InProgress else Broken)
  {
    DecidedSendsTheMove(s, b.toolCallId, b.subAgentId, b.allow, b.reason);
    MovingMarks(s, DecisionKey(b.toolCallId, b.subAgentId), if b.allow then InProgress else Broken,
                if b.allow then None else Some([Denial(b.reason)]));
  }

  lemma RequestShows(s: State, b: CallBody)
    requires !IsToolUse(b)
    ensures View(CallTranslated(s, b).state.tools) == ShownStep(View(s.tools), s.codeRuns, b)
  {
    match b
    case Spawned(subAgentId, description) =>
      ViewPut(s.tools, ToolState(SUB_AGENT + subAgentId, "sub_agent", "Sub-agent: " + description, InProgress, ""));
    case Complete(subAgentId, cost, summary) => CompletingMarks(s, subAgentId, cost, summary);
    case Failed(subAgentId, summary) => MovingMarks(s, SUB_AGENT + subAgentId, Broken, Some([summary]));
    case MergeBack(_, _) =>
    case ApprovalRequired(toolCallId, subAgentId, name, description, reasons) =>
      ApprovingShows(s, DecisionKey(toolCallId, subAgentId), name, description, reasons);
    case ApprovalDecided(_, _, _, _) => DecidingMarks(s, b);
    case PlanProposal(toolCallId, _, _, _) => ViewPut(s.tools, ToolState(toolCallId, "plan", "Proposed plan", Pending, ""));
  }

  lemma {:induction false} LinkingRunsNoCode(s: State, sources: seq<Source>)
    ensures Linked(s, sources).state.codeRuns == s.codeRuns
  {
    if sources != [] {
      LinkingRunsNoCode(s, Init(sources));
    }
  }

  lemma CallsRunCode(s: State, b: CallBody)
    ensures CallTranslated(s, b).state.codeRuns == s.codeRuns + if b.ExecutableCode? then 1 else 0
  {
    match b
    case ExecutableCode(_) =>
    case CodeExecutionResult(_, _) =>
    case ToolExecution(_, _, _, _, _) =>
    case ProviderCall(_, _, _, _) =>
    case SubAgentToolExecution(_, _, _, _, _, _) =>
    case ToolOutput(_, _, _, _) =>
    case SubAgentToolOutput(_, _, _, _, _) =>
    case Spawned(_, _) =>
    case Complete(_, _, _) =>
    case Failed(_, _) =>
    case MergeBack(_, _) =>
    case ApprovalRequired(_, _, _, _, _) =>
    case ApprovalDecided(_, _, _, _) =>
    case PlanProposal(_, _, _, _) =>
  }

  lemma OthersRunNoCode(costBefore: real, s: State, b: Body)
    requires !b.About?
    ensures TranslateBody(costBefore, s, b).state.codeRuns == s.codeRuns
  {
    match b
    case Sources(sources) => LinkingRunsNoCode(s, sources);
    case Ignored =>
    case UserMessage(_) =>
    case Chunk(_) =>
    case Thinking(_) =>
    case Image(_, _) =>
    case Refusal(_) =>
    case UserQuestion(_) =>
    case TodoUpdate(_) =>
    case PermissionMode(_) =>
    case ContextBudget(_, _) =>
    case UsageUpdate(_, _) =>
    case IterationLimit =>
    case TurnDone(_, _, _) =>
    case TurnError(_) =>
  }

  lemma {:induction false} CodeIsCounted(costBefore: real, bodies: seq<Body>)
    ensures Run(costBefore, bodies).codeRuns == CodeRuns(bodies)
  {
    if bodies != [] {
      CodeIsCounted(costBefore, Init(bodies));
      match Last(bodies)
      case About(call) => CallsRunCode(Run(costBefore, Init(bodies)), call);
      case _ => OthersRunNoCode(costBefore, Run(costBefore, Init(bodies)), Last(bodies));
    }
  }

  lemma CallShows(s: State, b: CallBody)
    requires NamesItsCall(b)
    ensures View(CallTranslated(s, b).state.tools) == ShownStep(View(s.tools), s.codeRuns, b)
  {
    if IsToolUse(b) { ToolUseShows(s, b); } else { RequestShows(s, b); }
  }

  lemma RunAfter(costBefore: real, bodies: seq<Body>, b: CallBody)
    ensures Run(costBefore, bodies + [About(b)]) == CallTranslated(Run(costBefore, bodies), b).state
  {
    RunSnoc(costBefore, bodies, About(b));
  }

  /** After any events, an event about a call it names makes of the calls shown exactly what the plain table says. */
  lemma CallEventShows(costBefore: real, bodies: seq<Body>, b: CallBody)
    requires NamesItsCall(b)
    ensures Display(costBefore, bodies + [About(b)]) == ShownStep(Display(costBefore, bodies), CodeRuns(bodies), b)
  {
    CallShows(Run(costBefore, bodies), b);
    CodeIsCounted(costBefore, bodies);
    RunAfter(costBefore, bodies, b);
    DisplayIsView(costBefore, bodies);
    DisplayIsView(costBefore, bodies + [About(b)]);
  }

  /** Events about no call leave the calls shown as they are. */
  lemma OtherEventsShowNothing(costBefore: real, bodies: seq<Body>, b: Body)
    requires !TouchesTools(b)
    ensures Display(costBefore, bodies + [b]) == Display(costBefore, bodies)
  {
    RunSnoc(costBefore, bodies, b);
    OthersAreSilent(costBefore, Run(costBefore, bodies), b);
    DisplayIsView(costBefore, bodies);
    DisplayIsView(costBefore, bodies + [b]);
  }

  /** An event without an id is one about the newest open call of its tool. */
  lemma NamelessIsTheNewest(s: State, name: string, progress: Progress, result: ToolResult, caption: string, prefix: string)
    requires NewestOpen(s.tools, name).Some?
    ensures ToolStep(s, None, name, progress, result, caption, prefix)
         == ToolStep(s, NewestOpen(s.tools, name), name, progress, result, caption, prefix)
  {
  }

  /** Without one it opens a call under its tool's name and the count of nameless calls, unless that id is taken. */
  lemma NamelessIsOpened(s: State, name: string, progress: Progress, result: ToolResult, caption: string, prefix: string)
    requires NewestOpen(s.tools, name).None? && name + "#" + Decimal(s.anonymousTools) !in View(s.tools)
    ensures var r, named := ToolStep(s, None, name, progress, result, caption, prefix),
                            ToolStep(s, Some(name + "#" + Decimal(s.anonymousTools)), name, progress, result, caption, prefix);
      && r.translated == named.translated && r.state.tools == named.state.tools
      && r.state.anonymousTools == s.anonymousTools + 1 && named.state.anonymousTools == s.anonymousTools
  {
  }

  /** What a provider says of its own call: nothing and no result is a call running, a failure or an error an error, all else done. */
  lemma ClaimsAreRead(claim: Claim, result: ToolResult)
    ensures ClaimedProgress(claim, result) == Calling <==> result == Undefined && claim == SaysNothing
    ensures ClaimedProgress(claim, result) == Errored <==> claim == SaysFailed || (result.Structure? && result.error)
    ensures ClaimedProgress(claim, result) != Streaming
  {
  }

  /** Two counts never share a numeral, so no two code runs share an id. */
  lemma {:induction false} DecimalsDiffer(a: nat, b: nat)
    requires Decimal(a) == Decimal(b)
    ensures a == b
    decreases a + b
  {
    DecimalIs(a);
    DecimalIs(b);
    assert '0' + (a % 10) as char == '0' + (b % 10) as char;
    if a >= 10 && b >= 10 {
      assert Init(Decimal(a)) == Decimal(a / 10) && Init(Decimal(b)) == Decimal(b / 10);
      DecimalsDiffer(a / 10, b / 10);
    }
  }

  lemma {:induction false} DecimalIs(n: nat)
    ensures Decimal(n) != "" && Last(Decimal(n)) == '0' + (n % 10) as char
    ensures |Decimal(n)| == 1 <==> n < 10
  {
    if n >= 10 {
      DecimalIs(n / 10);
    }
  }

  lemma CodeIdsDiffer(a: nat, b: nat)
    requires a != b
    ensures CodeId(a) != CodeId(b)
  {
    if CodeId(a) == CodeId(b) {
      assert CodeId(a)[|"code-execution-"|..] == Decimal(a) && CodeId(b)[|"code-execution-"|..] == Decimal(b);
      DecimalsDiffer(a, b);
    }
  }

  // ── What the updates carry ────────────────────────────────────────

  /** What a finished tool shows: what it returned, or else what it printed since it was announced. */
  function FinishedContent(result: ToolResult, printed: string): Option<seq<string>> {
    match result
    case Words(text) => Some([text])
    case Structure(json, _) => Some([json])
    case Undefined => if printed == "" then None else Some([Tail(printed)])
    case Null => if printed == "" then None else Some([Tail(printed)])
  }

  lemma FinishedToolSends(s: State, key: string, name: string, progress: Progress, result: ToolResult, caption: string)
    requires key in AsMap(s.tools) && (progress.Done? || progress.Errored?)
    ensures var updates := ToolStep(s, Some(key), name, progress, result, caption, "").translated.updates;
      && |updates| == 1 && updates[0].ToolCallUpdate? && updates[0].id == key
      && updates[0].content == ResultContent(result, AsMap(s.tools)[key].output)
  {
    KeyedById(s.tools);
  }

  lemma TailIsEmpty(text: string)
    ensures Tail(text) == "" <==> text == ""
  {
  }

  /** When a known tool finishes, its update carries its result, or the end of its output when it returned nothing. */
  lemma FinishedToolCarries(costBefore: real, bodies: seq<Body>, key: string, name: string, progress: Progress, result: ToolResult, caption: string)
    requires key in View(Run(costBefore, bodies).tools) && (progress.Done? || progress.Errored?)
    ensures var updates := ToolStep(Run(costBefore, bodies), Some(key), name, progress, result, caption, "").translated.updates;
      && |updates| == 1 && updates[0].ToolCallUpdate? && updates[0].id == key
      && updates[0].content == FinishedContent(result, PrintedSince(costBefore, bodies, key))
  {
    FinishedToolSends(Run(costBefore, bodies), key, name, progress, result, caption);
    ShownOutputIsTheTail(costBefore, bodies, key);
    TailIsEmpty(PrintedSince(costBefore, bodies, key));
  }

  /** What an event's updates carry besides titles and statuses. */
  function Note(b: CallBody): Option<seq<string>> {
    match b
    case ExecutableCode(code) => Some([code])
    case CodeExecutionResult(_, output) => Some([output])
    case Complete(_, _, summary) => Some([summary])
    case Failed(_, summary) => Some([summary])
    case MergeBack(_, detail) => Some([detail])
    case ApprovalDecided(_, _, allow, reason) =>
      if allow then None else if reason == "" then Some(["Denied."]) else Some(["Denied: " + reason])
    case PlanProposal(_, _, plan, _) => Some([plan])
    case _ => None
  }

  /** The call a report is about. */
  function ReportedOn(codeRuns: nat, b: CallBody): string {
    match b
    case CodeExecutionResult(_, _) => CodeId(codeRuns)
    case Complete(subAgentId, _, _) => "sub-agent/" + subAgentId
    case Failed(subAgentId, _) => "sub-agent/" + subAgentId
    case MergeBack(subAgentId, _) => "sub-agent/" + subAgentId
    case ApprovalDecided(toolCallId, subAgentId, _, _) => if subAgentId == "" then toolCallId else subAgentId + "/" + toolCallId
    case _ => ""
  }

  predicate IsReport(b: CallBody) {
    b.CodeExecutionResult? || b.Complete? || b.Failed? || b.MergeBack? || b.ApprovalDecided?
  }

  /** A report on a known call sends one update of it with what it reports; on any other call, nothing. */
  lemma ReportIsSent(s: State, b: CallBody)
    requires IsReport(b)
    ensures var updates, id := CallTranslated(s, b).translated.updates, ReportedOn(s.codeRuns, b);
      if id in View(s.tools) then
        |updates| == 1 && updates[0].ToolCallUpdate? && updates[0].id == id && updates[0].content == Note(b)
      else updates == []
  {
    match b
    case CodeExecutionResult(_, _) =>
    case Complete(_, _, _) =>
    case Failed(_, _) =>
    case MergeBack(_, _) =>
    case ApprovalDecided(_, _, _, _) =>
  }

  /** What is opened says what it is about: code, plans, and the reasons of an approval. */
  lemma OpeningCarries(s: State, b: CallBody)
    requires b.ExecutableCode? || b.PlanProposal? || b.ApprovalRequired?
    ensures var t := CallTranslated(s, b).translated;
      match b
      case ExecutableCode(_) => |t.updates| == 1 && t.updates[0].ToolCall? && t.updates[0].content == Note(b)
      case PlanProposal(_, _, _, autoApproved) =>
        if autoApproved then t.interaction == NoInteraction
        else |t.updates| == 2 && t.updates[1].ToolCall? && t.updates[1].content == Note(b)
             && t.interaction.PlanReview? && t.interaction.call.ToolCallUpdate? && t.interaction.call.content == Note(b)
      case ApprovalRequired(_, _, _, _, reasons) =>
        t.interaction.Approval? && t.interaction.call.ToolCallUpdate?
        && t.interaction.call.content == if reasons == [] then None else Some(reasons)
      case _ => true
  {
  }

  // ── Who is asked what ─────────────────────────────────────────────

  datatype Ask = AskApproval(id: string) | AskPlan(id: string) | AskQuestion(id: string) | Withdraw(id: string)

  function AskedBy(t: Translated): Option<Ask> {
    match t.interaction
    case NoInteraction => None
    case Approval(call) => if call.ToolCallUpdate? then Some(AskApproval(call.id)) else None
    case PlanReview(call) => if call.ToolCallUpdate? then Some(AskPlan(call.id)) else None
    case Question(id) => Some(AskQuestion(id))
    case Decided(id) => Some(Withdraw(id))
  }

  /** Approvals, plans to approve and questions are asked; a decision withdraws what is open for its call; nothing else asks. */
  function AskOf(b: Body): Option<Ask> {
    match b
    case UserQuestion(id) => Some(AskQuestion(id))
    case About(ApprovalRequired(toolCallId, subAgentId, _, _, _)) =>
      Some(AskApproval(if subAgentId == "" then toolCallId else subAgentId + "/" + toolCallId))
    case About(ApprovalDecided(toolCallId, subAgentId, _, _)) =>
      Some(Withdraw(if subAgentId == "" then toolCallId else subAgentId + "/" + toolCallId))
    case About(PlanProposal(toolCallId, _, _, autoApproved)) => if autoApproved then None else Some(AskPlan(toolCallId))
    case _ => None
  }

  lemma CallsAsk(s: State, b: CallBody)
    ensures AskedBy(CallTranslated(s, b).translated) == AskOf(About(b))
  {
    match b
    case ExecutableCode(_) =>
    case CodeExecutionResult(_, _) =>
    case ToolExecution(_, _, _, _, _) =>
    case ProviderCall(_, _, _, _) =>
    case SubAgentToolExecution(_, _, _, _, _, _) =>
    case ToolOutput(_, _, _, _) =>
    case SubAgentToolOutput(_, _, _, _, _) =>
    case Spawned(_, _) =>
    case Complete(_, _, _) =>
    case Failed(_, _) =>
    case MergeBack(_, _) =>
    case ApprovalRequired(_, _, _, _, _) => ApprovalOpensItsKey(s, b);
    case ApprovalDecided(_, _, _, _) =>
    case PlanProposal(_, _, _, _) =>
  }

  lemma EveryEventAsks(costBefore: real, s: State, b: Body)
    ensures AskedBy(TranslateBody(costBefore, s, b).translated) == AskOf(b)
  {
    match b
    case About(call) => CallsAsk(s, call);
    case Sources(sources) => LinkingIsFaithful(s, sources);
    case Ignored =>
    case UserMessage(_) =>
    case Chunk(_) =>
    case Thinking(_) =>
    case Image(_, _) =>
    case Refusal(_) =>
    case UserQuestion(_) =>
    case TodoUpdate(_) =>
    case PermissionMode(_) =>
    case ContextBudget(_, _) =>
    case UsageUpdate(_, _) =>
    case IterationLimit =>
    case TurnDone(_, _, _) =>
    case TurnError(_) =>
  }
}
