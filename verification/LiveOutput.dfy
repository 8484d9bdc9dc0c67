/** The live output of tool calls: what is shown is the end of all that was printed. */
module LiveOutput {
  import opened Prelude
  import opened TurnTranslation
  import opened ToolLifecycle

  /** `end` is the last 16000 characters of `text`, or all of them when it has no more. */
  ghost predicate IsEnd(end: string, text: string) {
    |end| == (if |text| <= 16000 then |text| else 16000) && end == text[|text| - |end|..]
  }

  lemma TailIsTheEnd(text: string)
    ensures IsEnd(Tail(text), text)
  {
  }

  lemma TailForgetsOnlyTheOld(a: string, b: string)
    ensures Tail(Tail(a) + b) == Tail(a + b)
  {
    var n := |a| - |Tail(a)|;
    assert a == a[..n] + Tail(a);
    assert a + b == a[..n] + (Tail(a) + b);
  }

  // ── What a call printed ───────────────────────────────────────────

  function ResolvedTo(s: State, key: Option<string>, name: string, printed: bool, data: string, id: string): string {
    if printed && id != "" && (if key.Some? then key else NewestOpen(s.tools, name)) == Some(id) then data else ""
  }

  /** What an event prints for the call `id`: by its id, or as the newest open call of its tool. */
  function PrintedBy(s: State, b: Body, id: string): string {
    match b
    case About(ToolOutput(key, name, printed, data)) => ResolvedTo(s, key, name, printed, data, id)
    case About(SubAgentToolOutput(subAgentId, key, name, printed, data)) =>
      ResolvedTo(s, Within(subAgentId, key), name, printed, data, id)
    case _ => ""
  }

  /** All that was printed for `id` since its call was last announced. */
  ghost function PrintedSince(costBefore: real, bodies: seq<Body>, id: string): string {
    if bodies == [] then ""
    else
      var s := Run(costBefore, Init(bodies));
      if Announced(TranslateBody(costBefore, s, Last(bodies)).translated.updates, id) then ""
      else PrintedSince(costBefore, Init(bodies), id) + PrintedBy(s, Last(bodies), id)
  }

  // ── One event ─────────────────────────────────────────────────────

  ghost predicate IsTail(tools: seq<ToolState>, id: string) {
    id in AsMap(tools) ==> |AsMap(tools)[id].output| <= OUTPUT_TAIL
  }

  /** An announced call has no output; any other has what it had and what it printed, cut to the tail. */
  ghost predicate OutputFollows(tools: seq<ToolState>, r: Step, id: string, printed: string) {
    var after := AsMap(r.state.tools);
    if Announced(r.translated.updates, id) then id in after && after[id].output == ""
    else id in after ==> id in AsMap(tools) && after[id].output == Tail(AsMap(tools)[id].output + printed)
  }

  ghost predicate NoCall(updates: seq<Update>) {
    forall u <- updates :: !u.ToolCall?
  }

  lemma NothingAnnounced(updates: seq<Update>, id: string)
    requires NoCall(updates)
    ensures !Announced(updates, id)
  {
  }

  lemma OneAnnounced(u: Update, id: string)
    ensures Announced([u], id) <==> u.ToolCall? && u.id == id
  {
    AnnouncedSnoc([], u, id);
    assert [] + [u] == [u];
  }

  lemma UnchangedFollows(tools: seq<ToolState>, r: Step, id: string)
    requires IsTail(tools, id) && r.state.tools == tools && NoCall(r.translated.updates)
    ensures OutputFollows(tools, r, id, "")
  {
    NothingAnnounced(r.translated.updates, id);
    if id in AsMap(tools) {
      assert AsMap(tools)[id].output + "" == AsMap(tools)[id].output;
    }
  }

  /** One known call changes, and prints `printed`. */
  lemma ChangeFollows(tools: seq<ToolState>, tool: ToolState, r: Step, id: string, printed: string)
    requires IsTail(tools, id) && NoCall(r.translated.updates) && r.state.tools == Put(tools, tool) && tool.id in AsMap(tools)
    requires tool.output == Tail(AsMap(tools)[tool.id].output + if tool.id == id then printed else "")
          || (printed == "" && tool.output == AsMap(tools)[tool.id].output)
    requires tool.id != id ==> printed == ""
    ensures OutputFollows(tools, r, id, printed)
  {
    NothingAnnounced(r.translated.updates, id);
    PutIsSet(tools, tool);
    if id in AsMap(tools) {
      assert AsMap(tools)[id].output + "" == AsMap(tools)[id].output;
    }
  }

  /** A call is opened, and announced first of all. */
  lemma OpeningFollows(tools: seq<ToolState>, tool: ToolState, r: Step, id: string)
    requires IsTail(tools, id) && tool.output == "" && r.state.tools == Put(tools, tool)
    requires Announced(r.translated.updates, id) <==> tool.id == id
    ensures OutputFollows(tools, r, id, "")
  {
    PutIsSet(tools, tool);
    if id in AsMap(tools) {
      assert AsMap(tools)[id].output + "" == AsMap(tools)[id].output;
    }
  }

  lemma MovingFollows(s: State, moved: Status, content: Option<seq<string>>, target: string, id: string)
    requires IsTail(s.tools, id)
    ensures OutputFollows(s.tools, Moved(s, target, moved, content), id, "")
  {
    var r := Moved(s, target, moved, content);
    if target in AsMap(s.tools) {
      KeyedById(s.tools);
      ChangeFollows(s.tools, AsMap(s.tools)[target].(status := moved), r, id, "");
    } else {
      UnchangedFollows(s.tools, r, id);
    }
  }

  lemma PrintingFollows(s: State, key: Option<string>, name: string, printed: bool, data: string, id: string)
    requires IsTail(s.tools, id)
    ensures OutputFollows(s.tools, ToolPrinted(s, key, name, printed, data), id, ResolvedTo(s, key, name, printed, data, id))
  {
    var target := if key.Some? then key else NewestOpen(s.tools, name);
    var r := ToolPrinted(s, key, name, printed, data);
    if !printed || data == "" || target.None? || target.value == "" || target.value !in AsMap(s.tools) {
      NothingAnnounced(r.translated.updates, id);
      if id in AsMap(s.tools) {
        assert AsMap(s.tools)[id].output + "" == AsMap(s.tools)[id].output;
      }
    } else {
      KeyedById(s.tools);
      var tool := AsMap(s.tools)[target.value];
      PrintedToFollows(s.tools, tool, r, id, data);
    }
  }

  lemma PrintedToFollows(tools: seq<ToolState>, tool: ToolState, r: Step, id: string, data: string)
    requires IsTail(tools, id) && NoCall(r.translated.updates) && tool.id in AsMap(tools) && AsMap(tools)[tool.id] == tool
    requires r.state.tools == Put(tools, tool.(output := Tail(tool.output + data)))
    ensures OutputFollows(tools, r, id, if tool.id == id then data else "")
  {
    NothingAnnounced(r.translated.updates, id);
    PutIsSet(tools, tool.(output := Tail(tool.output + data)));
    if id in AsMap(tools) {
      assert AsMap(tools)[id].output + "" == AsMap(tools)[id].output;
    }
  }

  /** The call an event refers to is there; it is announced exactly when it is new, and then has no output. */
  lemma EnsuringFollows(s: State, key: Option<string>, name: string, caption: string, prefix: string, id: string)
    requires IsTail(s.tools, id)
    ensures var e := Ensuring(s, key, name, caption, prefix);
      OutputFollows(s.tools, Sending(e.state, e.announce), id, "")
  {
    var e := Ensuring(s, key, name, caption, prefix);
    if e.announce == [] {
      UnchangedFollows(s.tools, Sending(e.state, e.announce), id);
    } else {
      OneAnnounced(e.announce[0], id);
      OpeningFollows(s.tools, ToolState(e.id, name, Title(prefix, caption, name), Pending, ""), Sending(e.state, e.announce), id);
    }
  }

  /** A change of a call's title or status behind its announcement. */
  lemma RetitlingFollows(tools: seq<ToolState>, ensured: Step, tool: ToolState, r: Step, id: string)
    requires OutputFollows(tools, ensured, id, "")
    requires tool.id in AsMap(ensured.state.tools) && tool.output == AsMap(ensured.state.tools)[tool.id].output
    requires r.state.tools == Put(ensured.state.tools, tool)
    requires Announced(r.translated.updates, id) <==> Announced(ensured.translated.updates, id)
    ensures OutputFollows(tools, r, id, "")
  {
    PutIsSet(ensured.state.tools, tool);
  }

  lemma ToolStepFollows(s: State, key: Option<string>, name: string, progress: Progress, result: ToolResult, caption: string, prefix: string, id: string)
    requires IsTail(s.tools, id)
    ensures OutputFollows(s.tools, ToolStep(s, key, name, progress, result, caption, prefix), id, "")
  {
    var resolved := if key.Some? then key else NewestOpen(s.tools, name);
    var e := Ensuring(s, resolved, name, caption, prefix);
    EnsuringFollows(s, resolved, name, caption, prefix, id);
    AdvancingFollows(s.tools, e, name, progress, result, caption, prefix, id);
  }

  lemma AdvancingFollows(tools: seq<ToolState>, e: Ensured, name: string, progress: Progress, result: ToolResult, caption: string, prefix: string, id: string)
    requires OutputFollows(tools, Sending(e.state, e.announce), id, "") && e.id in AsMap(e.state.tools)
    ensures OutputFollows(tools, EnsuredThenAdvanced(e, name, progress, result, caption, prefix), id, "")
  {
    if !progress.Streaming? {
      var (tool, update) := AdvancedBy(e, name, progress, result, caption, prefix);
      KeyedById(e.state.tools);
      AnnouncedSnoc(e.announce, update, id);
      RetitlingFollows(tools, Sending(e.state, e.announce), tool,
                       EnsuredThenAdvanced(e, name, progress, result, caption, prefix), id);
    }
  }

  lemma ApprovingFollows(s: State, toolCallId: string, subAgentId: string, name: string, description: string, reasons: seq<string>, id: string)
    requires IsTail(s.tools, id)
    ensures OutputFollows(s.tools, Approving(s, toolCallId, subAgentId, name, description, reasons), id, "")
  {
    var key := Some(DecisionKey(toolCallId, subAgentId));
    var e := Ensuring(s, key, name, "", description);
    EnsuringFollows(s, key, name, "", description, id);
    RetitlingFollows(s.tools, Sending(e.state, e.announce), AsMap(e.state.tools)[e.id].(status := Pending), AskedFor(e, reasons), id);
  }

  lemma ProposingFollows(s: State, proposal: CallBody, id: string)
    requires IsTail(s.tools, id) && proposal.PlanProposal?
    ensures OutputFollows(s.tools, CallTranslated(s, proposal), id, "")
  {
    var r := CallTranslated(s, proposal);
    if proposal.autoApproved {
      UnchangedFollows(s.tools, r, id);
    } else {
      OneAnnounced(r.translated.updates[0], id);
      AnnouncedSnoc([r.translated.updates[0]], r.translated.updates[1], id);
      OpeningFollows(s.tools, ToolState(proposal.toolCallId, "plan", "Proposed plan", Pending, ""), r, id);
    }
  }

  lemma SpawningFollows(s: State, spawned: CallBody, id: string)
    requires IsTail(s.tools, id) && spawned.Spawned?
    ensures OutputFollows(s.tools, CallTranslated(s, spawned), id, "")
  {
    var r := CallTranslated(s, spawned);
    if SUB_AGENT + spawned.subAgentId in AsMap(s.tools) {
      UnchangedFollows(s.tools, r, id);
    } else {
      OneAnnounced(r.translated.updates[0], id);
      OpeningFollows(s.tools, ToolState(SUB_AGENT + spawned.subAgentId, "sub_agent", "Sub-agent: " + spawned.description, InProgress, ""), r, id);
    }
  }

  lemma CodeRunFollows(s: State, code: string, id: string)
    requires IsTail(s.tools, id)
    ensures OutputFollows(s.tools, CodeRun(s, code), id, "")
  {
    var r := CodeRun(s, code);
    OneAnnounced(r.translated.updates[0], id);
    OpeningFollows(s.tools, ToolState(r.translated.updates[0].id, "code_execution", "Code execution", InProgress, ""), r, id);
  }

  lemma CompletingFollows(s: State, subAgentId: string, cost: Option<real>, summary: string, id: string)
    requires IsTail(s.tools, id)
    ensures OutputFollows(s.tools, Completes(s, subAgentId, cost, summary), id, "")
  {
    var target := SUB_AGENT + subAgentId;
    var counted :=
      if target in AsMap(s.tools) && cost.Some? then CostUpdated(s.(endedTurnsCost := Add(s.endedTurnsCost, cost))) else s;
    MovingFollows(counted, Completed, Some([summary]), target, id);
  }

  lemma DecidingFollows(s: State, decision: CallBody, id: string)
    requires IsTail(s.tools, id) && decision.ApprovalDecided?
    ensures OutputFollows(s.tools, CallTranslated(s, decision), id, "")
  {
    MovingFollows(s, if decision.allow then InProgress else Broken,
                  if decision.allow then None else Some([Denial(decision.reason)]),
                  DecisionKey(decision.toolCallId, decision.subAgentId), id);
  }

  lemma ToolUseFollows(s: State, b: CallBody, id: string)
    requires IsTail(s.tools, id) && IsToolUse(b)
    ensures OutputFollows(s.tools, CallTranslated(s, b), id, PrintedBy(s, About(b), id))
  {
    match b
    case ExecutableCode(code) => CodeRunFollows(s, code, id);
    case CodeExecutionResult(succeeded, output) =>
      MovingFollows(s, if succeeded then Completed else Broken, Some([output]), "code-execution-" + Decimal(s.codeRuns), id);
    case ToolExecution(key, name, progress, result, caption) => ToolStepFollows(s, key, name, progress, result, caption, "", id);
    case ProviderCall(key, name, claim, result) =>
      ToolStepFollows(s, key, if name != "" then name else "tool", ClaimedProgress(claim, result), result, "", "", id);
    case SubAgentToolExecution(subAgentId, key, name, progress, result, description) =>
      ToolStepFollows(s, Within(subAgentId, key), name, progress, result, "", description, id);
    case ToolOutput(key, name, printed, data) => PrintingFollows(s, key, name, printed, data, id);
    case SubAgentToolOutput(subAgentId, key, name, printed, data) =>
      PrintingFollows(s, Within(subAgentId, key), name, printed, data, id);
  }

  lemma RequestFollows(s: State, b: CallBody, id: string)
    requires IsTail(s.tools, id) && !IsToolUse(b)
    ensures OutputFollows(s.tools, CallTranslated(s, b), id, "")
  {
    match b
    case Spawned(_, _) => SpawningFollows(s, b, id);
    case Complete(subAgentId, cost, summary) => CompletingFollows(s, subAgentId, cost, summary, id);
    case Failed(subAgentId, summary) => MovingFollows(s, Broken, Some([summary]), SUB_AGENT + subAgentId, id);
    case MergeBack(_, _) => UnchangedFollows(s.tools, CallTranslated(s, b), id);
    case ApprovalRequired(toolCallId, subAgentId, name, description, reasons) =>
      ApprovingFollows(s, toolCallId, subAgentId, name, description, reasons, id);
    case ApprovalDecided(_, _, _, _) => DecidingFollows(s, b, id);
    case PlanProposal(_, _, _, _) => ProposingFollows(s, b, id);
  }

  lemma FinishingFollows(tools: seq<ToolState>, r: Step, status: Status, content: Option<seq<string>>, id: string)
    requires IsTail(tools, id) && r.state.tools == Closed(tools, status) && r.translated.updates == Closings(tools, status, content)
    ensures OutputFollows(tools, r, id, "")
  {
    ClosingsNameTools(tools, status, content);
    NothingAnnounced(r.translated.updates, id);
    ClosedIs(tools, status);
    if id in AsMap(tools) {
      assert AsMap(tools)[id].output + "" == AsMap(tools)[id].output;
    }
  }

  lemma StepFollows(costBefore: real, s: State, b: Body, id: string)
    requires IsTail(s.tools, id)
    ensures OutputFollows(s.tools, TranslateBody(costBefore, s, b), id, PrintedBy(s, b, id))
  {
    var r := TranslateBody(costBefore, s, b);
    if b.About? {
      if IsToolUse(b.call) { ToolUseFollows(s, b.call, id); } else { RequestFollows(s, b.call, id); }
    } else if b.TurnDone? {
      FinishingFollows(s.tools, r, Completed, None, id);
    } else if b.TurnError? {
      FinishingFollows(s.tools, r, Broken, None, id);
    } else {
      OthersAreSilent(costBefore, s, b);
      UnchangedFollows(s.tools, r, id);
    }
  }

  // ── Every run ─────────────────────────────────────────────────────

  /**
   * After every sequence of events, whatever came in between, a call's output
   * is the end of all that was printed for it since it was last announced.
   */
  lemma {:induction false} ShownOutputIsTheTail(costBefore: real, bodies: seq<Body>, id: string)
    requires id in AsMap(Run(costBefore, bodies).tools)
    ensures AsMap(Run(costBefore, bodies).tools)[id].output == Tail(PrintedSince(costBefore, bodies, id))
    ensures IsEnd(AsMap(Run(costBefore, bodies).tools)[id].output, PrintedSince(costBefore, bodies, id))
  {
    TailIsTheEnd(PrintedSince(costBefore, bodies, id));
    var before, last := Init(bodies), Last(bodies);
    var s := Run(costBefore, before);
    if id in AsMap(s.tools) {
      ShownOutputIsTheTail(costBefore, before, id);
    }
    StepFollows(costBefore, s, last, id);
    TailForgetsOnlyTheOld(PrintedSince(costBefore, before, id), PrintedBy(s, last, id));
  }

  lemma PrintedSnoc(costBefore: real, bodies: seq<Body>, b: Body, id: string)
    ensures var s := Run(costBefore, bodies);
      PrintedSince(costBefore, bodies + [b], id)
      == if Announced(TranslateBody(costBefore, s, b).translated.updates, id) then ""
         else PrintedSince(costBefore, bodies, id) + PrintedBy(s, b, id)
  {
    assert Init(bodies + [b]) == bodies;
  }

  lemma PrintSends(s: State, key: string, name: string, data: string)
    requires key != "" && data != "" && key in AsMap(s.tools)
    ensures ToolPrinted(s, Some(key), name, true, data).translated.updates
         == [ToolCallUpdate(key, None, None, Some([Tail(AsMap(s.tools)[key].output + data)]))]
  {
    KeyedById(s.tools);
  }

  lemma PrintedMore(costBefore: real, bodies: seq<Body>, key: string, name: string, data: string)
    requires key != "" && data != "" && key in AsMap(Run(costBefore, bodies).tools)
    ensures PrintedSince(costBefore, bodies + [About(ToolOutput(Some(key), name, true, data))], key)
         == PrintedSince(costBefore, bodies, key) + data
  {
    var s := Run(costBefore, bodies);
    PrintSends(s, key, name, data);
    NothingAnnounced(ToolPrinted(s, Some(key), name, true, data).translated.updates, key);
    PrintedSnoc(costBefore, bodies, About(ToolOutput(Some(key), name, true, data)), key);
  }

  /** And each print is shown with it: the update it sends holds that end. */
  lemma PrintIsShown(costBefore: real, bodies: seq<Body>, key: string, name: string, data: string)
    requires key != "" && data != "" && key in AsMap(Run(costBefore, bodies).tools)
    ensures var all := PrintedSince(costBefore, bodies + [About(ToolOutput(Some(key), name, true, data))], key);
      ToolPrinted(Run(costBefore, bodies), Some(key), name, true, data).translated.updates
      == [ToolCallUpdate(key, None, None, Some([Tail(all)]))]
  {
    PrintSends(Run(costBefore, bodies), key, name, data);
    ShownOutputIsTheTail(costBefore, bodies, key);
    TailForgetsOnlyTheOld(PrintedSince(costBefore, bodies, key), data);
    PrintedMore(costBefore, bodies, key, name, data);
  }
}
