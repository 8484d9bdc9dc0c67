/** What an editor makes of the updates: the tool calls it shows are the translator's, and none stays open. */
module ToolLifecycle {
  import opened Prelude
  import opened TurnTranslation

  // ── The editor's side ─────────────────────────────────────────────

  datatype Shown = Shown(title: string, status: Status)

  /** The calls an editor shows once it got `update`; an update for a call it does not know is dropped. */
  function Seen(view: map<string, Shown>, update: Update): map<string, Shown> {
    match update
    case ToolCall(id, title, _, status, _) => view[id := Shown(title, status)]
    case ToolCallUpdate(id, newTitle, newStatus, _) =>
      if id !in view then view
      else view[id := Shown(if newTitle.Some? then newTitle.value else view[id].title,
                            if newStatus.Some? then newStatus.value else view[id].status)]
    case _ => view
  }

  function SeenAll(view: map<string, Shown>, updates: seq<Update>): map<string, Shown> {
    if updates == [] then view else Seen(SeenAll(view, Init(updates)), Last(updates))
  }

  /** No update of `updates` comes before its call. */
  predicate Accepts(view: map<string, Shown>, updates: seq<Update>) {
    updates == [] ||
    (Accepts(view, Init(updates)) && (Last(updates).ToolCallUpdate? ==> Last(updates).id in SeenAll(view, Init(updates))))
  }

  /** All an event sends about calls: its updates, then the call a person is asked about. */
  function Sent(t: Translated): seq<Update> {
    t.updates + (match t.interaction
                 case Approval(call) => [call]
                 case PlanReview(call) => [call]
                 case _ => [])
  }

  function Run(costBefore: real, bodies: seq<Body>): State {
    if bodies == [] then START else TranslateBody(costBefore, Run(costBefore, Init(bodies)), Last(bodies)).state
  }

  function Log(costBefore: real, bodies: seq<Body>): seq<Update> {
    if bodies == [] then []
    else Log(costBefore, Init(bodies)) + Sent(TranslateBody(costBefore, Run(costBefore, Init(bodies)), Last(bodies)).translated)
  }

  // ── The translator's side ─────────────────────────────────────────

  function View(tools: seq<ToolState>): map<string, Shown> {
    map id | id in AsMap(tools) :: Shown(AsMap(tools)[id].title, AsMap(tools)[id].status)
  }

  ghost predicate DistinctIds(tools: seq<ToolState>) {
    forall i, j :: 0 <= i < j < |tools| ==> tools[i].id != tools[j].id
  }

  lemma ViewPut(tools: seq<ToolState>, tool: ToolState)
    ensures View(Put(tools, tool)) == View(tools)[tool.id := Shown(tool.title, tool.status)]
  {
    PutIsSet(tools, tool);
  }

  lemma {:induction false} ReplacingKeepsIds(tools: seq<ToolState>, tool: ToolState)
    ensures |Replaced(tools, tool)| == |tools|
    ensures forall i :: 0 <= i < |tools| ==> Replaced(tools, tool)[i].id == tools[i].id
  {
    if tools != [] && Last(tools).id != tool.id {
      ReplacingKeepsIds(Init(tools), tool);
    }
  }

  lemma {:induction false} KeysAreIds(tools: seq<ToolState>)
    ensures forall t <- tools :: t.id in AsMap(tools)
  {
    if tools != [] {
      KeysAreIds(Init(tools));
    }
  }

  lemma PutKeepsDistinct(tools: seq<ToolState>, tool: ToolState)
    requires DistinctIds(tools)
    ensures DistinctIds(Put(tools, tool))
  {
    ReplacingKeepsIds(tools, tool);
    KeysAreIds(tools);
  }

  // ── Batches of updates ────────────────────────────────────────────

  lemma {:induction false} SeenAppend(view: map<string, Shown>, a: seq<Update>, b: seq<Update>)
    ensures SeenAll(view, a + b) == SeenAll(SeenAll(view, a), b)
    ensures Accepts(view, a + b) <==> Accepts(view, a) && Accepts(SeenAll(view, a), b)
  {
    if b == [] {
      assert a + b == a;
    } else {
      SeenAppend(view, a, Init(b));
      assert Init(a + b) == a + Init(b) && Last(a + b) == Last(b);
    }
  }

  lemma SeenOne(view: map<string, Shown>, u: Update)
    ensures SeenAll(view, [u]) == Seen(view, u)
    ensures Accepts(view, [u]) <==> (u.ToolCallUpdate? ==> u.id in view)
  {
    assert Init([u]) == [];
  }

  lemma SeenTwo(view: map<string, Shown>, u: Update, v: Update)
    ensures SeenAll(view, [u, v]) == Seen(Seen(view, u), v)
    ensures Accepts(view, [u, v]) <==> (u.ToolCallUpdate? ==> u.id in view) && (v.ToolCallUpdate? ==> v.id in Seen(view, u))
  {
    SeenOne(view, u);
    SeenOne(Seen(view, u), v);
    SeenAppend(view, [u], [v]);
    assert [u, v] == [u] + [v];
  }

  /** Updates about nothing but text, links and totals change no call. */
  lemma {:induction false} OthersShowNoCall(view: map<string, Shown>, updates: seq<Update>)
    requires forall u <- updates :: !u.ToolCall? && !u.ToolCallUpdate?
    ensures SeenAll(view, updates) == view && Accepts(view, updates)
  {
    if updates != [] {
      OthersShowNoCall(view, Init(updates));
    }
  }

  // ── One event at a time ───────────────────────────────────────────

  /** The editor accepts what a step sends, and then shows the translator's calls again. */
  ghost predicate Faithful(s: State, r: Step) {
    && DistinctIds(r.state.tools)
    && Accepts(View(s.tools), Sent(r.translated))
    && SeenAll(View(s.tools), Sent(r.translated)) == View(r.state.tools)
  }

  lemma EnsuringIsFaithful(s: State, key: Option<string>, name: string, caption: string, prefix: string)
    requires DistinctIds(s.tools)
    ensures var e := Ensuring(s, key, name, caption, prefix);
      && DistinctIds(e.state.tools) && e.id in View(e.state.tools)
      && Accepts(View(s.tools), e.announce) && SeenAll(View(s.tools), e.announce) == View(e.state.tools)
  {
    var e := Ensuring(s, key, name, caption, prefix);
    if e.announce != [] {
      var tool := ToolState(e.id, name, Title(prefix, caption, name), Pending, "");
      PutKeepsDistinct(s.tools, tool);
      ViewPut(s.tools, tool);
      SeenOne(View(s.tools), e.announce[0]);
    }
  }

  /** One known call changes, and one update says how. */
  lemma ChangeIsSeen(tools: seq<ToolState>, tool: ToolState, update: Update)
    requires DistinctIds(tools) && tool.id in View(tools)
    requires update.ToolCallUpdate? && update.id == tool.id
    requires Shown(tool.title, tool.status)
          == Shown(if update.newTitle.Some? then update.newTitle.value else View(tools)[tool.id].title,
                   if update.newStatus.Some? then update.newStatus.value else View(tools)[tool.id].status)
    ensures DistinctIds(Put(tools, tool)) && Accepts(View(tools), [update])
    ensures SeenAll(View(tools), [update]) == View(Put(tools, tool))
  {
    PutKeepsDistinct(tools, tool);
    ViewPut(tools, tool);
    SeenOne(View(tools), update);
  }

  /** The same behind an announcement. */
  lemma ChangeIsSeenAfter(before: seq<ToolState>, announce: seq<Update>, tools: seq<ToolState>, tool: ToolState, update: Update)
    requires Accepts(View(before), announce) && SeenAll(View(before), announce) == View(tools)
    requires DistinctIds(tools) && tool.id in View(tools)
    requires update.ToolCallUpdate? && update.id == tool.id
    requires Shown(tool.title, tool.status)
          == Shown(if update.newTitle.Some? then update.newTitle.value else View(tools)[tool.id].title,
                   if update.newStatus.Some? then update.newStatus.value else View(tools)[tool.id].status)
    ensures DistinctIds(Put(tools, tool)) && Accepts(View(before), announce + [update])
    ensures SeenAll(View(before), announce + [update]) == View(Put(tools, tool))
  {
    ChangeIsSeen(tools, tool, update);
    SeenAppend(View(before), announce, [update]);
  }

  lemma ToolStepSends(s: State, key: Option<string>, name: string, progress: Progress, result: ToolResult, caption: string, prefix: string)
    ensures var e := Ensuring(s, if key.Some? then key else NewestOpen(s.tools, name), name, caption, prefix);
      var r := ToolStep(s, key, name, progress, result, caption, prefix);
      if progress.Streaming? then r.state == e.state && Sent(r.translated) == e.announce
      else
        var (tool, update) := AdvancedBy(e, name, progress, result, caption, prefix);
        r.state.tools == Put(e.state.tools, tool) && Sent(r.translated) == e.announce + [update]
  {
  }

  lemma AdvancingIsSeen(s: State, e: Ensured, name: string, progress: Progress, result: ToolResult, caption: string, prefix: string)
    requires Accepts(View(s.tools), e.announce) && SeenAll(View(s.tools), e.announce) == View(e.state.tools)
    requires DistinctIds(e.state.tools) && e.id in AsMap(e.state.tools) && !progress.Streaming?
    ensures var (tool, update) := AdvancedBy(e, name, progress, result, caption, prefix);
      && DistinctIds(Put(e.state.tools, tool)) && Accepts(View(s.tools), e.announce + [update])
      && SeenAll(View(s.tools), e.announce + [update]) == View(Put(e.state.tools, tool))
  {
    var (tool, update) := AdvancedBy(e, name, progress, result, caption, prefix);
    KeyedById(e.state.tools);
    ChangeIsSeenAfter(s.tools, e.announce, e.state.tools, tool, update);
  }

  lemma ToolStepIsFaithful(s: State, key: Option<string>, name: string, progress: Progress, result: ToolResult, caption: string, prefix: string)
    requires DistinctIds(s.tools)
    ensures Faithful(s, ToolStep(s, key, name, progress, result, caption, prefix))
  {
    var resolved := if key.Some? then key else NewestOpen(s.tools, name);
    EnsuringIsFaithful(s, resolved, name, caption, prefix);
    ToolStepSends(s, key, name, progress, result, caption, prefix);
    if !progress.Streaming? {
      AdvancingIsSeen(s, Ensuring(s, resolved, name, caption, prefix), name, progress, result, caption, prefix);
    }
  }

  lemma PrintingIsFaithful(s: State, key: Option<string>, name: string, printed: bool, data: string)
    requires DistinctIds(s.tools)
    ensures Faithful(s, ToolPrinted(s, key, name, printed, data))
  {
    var r := ToolPrinted(s, key, name, printed, data);
    if r.translated.updates == [] {
      assert Sent(r.translated) == [];
    } else {
      KeyedById(s.tools);
      var id := if key.Some? then key else NewestOpen(s.tools, name);
      var tool := AsMap(s.tools)[id.value];
      ChangeIsSeen(s.tools, tool.(output := Tail(tool.output + data)), r.translated.updates[0]);
      assert Sent(r.translated) == [r.translated.updates[0]];
    }
  }

  lemma AddingIsFaithful(s: State, tool: ToolState, call: Update, r: Step)
    requires DistinctIds(s.tools)
    requires call.ToolCall? && call.id == tool.id && call.title == tool.title && call.status == tool.status
    requires r.state.tools == Put(s.tools, tool) && Sent(r.translated) == [call]
    ensures Faithful(s, r)
  {
    PutKeepsDistinct(s.tools, tool);
    ViewPut(s.tools, tool);
    SeenOne(View(s.tools), call);
  }

  lemma MovingIsFaithful(s: State, id: string, status: Status, content: Option<seq<string>>)
    requires DistinctIds(s.tools)
    ensures Faithful(s, Moved(s, id, status, content))
  {
    var r := Moved(s, id, status, content);
    if id in AsMap(s.tools) {
      KeyedById(s.tools);
      ChangeIsSeen(s.tools, AsMap(s.tools)[id].(status := status), ToolCallUpdate(id, None, Some(status), content));
      assert Sent(r.translated) == [ToolCallUpdate(id, None, Some(status), content)];
    } else {
      assert Sent(r.translated) == [];
    }
  }

  lemma ApprovingIsFaithful(s: State, toolCallId: string, subAgentId: string, name: string, description: string, reasons: seq<string>)
    requires DistinctIds(s.tools)
    ensures Faithful(s, Approving(s, toolCallId, subAgentId, name, description, reasons))
  {
    var key := Some(DecisionKey(toolCallId, subAgentId));
    var e := Ensuring(s, key, name, "", description);
    EnsuringIsFaithful(s, key, name, "", description);
    var tool := AsMap(e.state.tools)[e.id].(status := Pending);
    var update := ToolCallUpdate(tool.id, Some(tool.title), Some(Pending), if reasons != [] then Some(reasons) else None);
    ChangeIsSeenAfter(s.tools, e.announce, e.state.tools, tool, update);
    assert Sent(Approving(s, toolCallId, subAgentId, name, description, reasons).translated) == e.announce + [update];
  }

  lemma ProposingIsFaithful(s: State, id: string, steps: seq<string>, plan: string, autoApproved: bool)
    requires DistinctIds(s.tools)
    ensures Faithful(s, Propose(s, id, steps, plan, autoApproved))
  {
    var r := Propose(s, id, steps, plan, autoApproved);
    var view := View(s.tools);
    if autoApproved {
      SeenOne(view, Plan(Entries(steps)));
      assert Sent(r.translated) == [Plan(Entries(steps))];
    } else {
      var tool := ToolState(id, "plan", "Proposed plan", Pending, "");
      PutKeepsDistinct(s.tools, tool);
      ViewPut(s.tools, tool);
      var call, review := r.translated.updates[1], r.translated.interaction.call;
      SeenTwo(view, Plan(Entries(steps)), call);
      SeenOne(Seen(view, call), review);
      SeenAppend(view, [Plan(Entries(steps)), call], [review]);
      assert Seen(Seen(view, call), review) == Seen(view, call);
      assert Sent(r.translated) == [Plan(Entries(steps)), call] + [review];
    }
  }

  // ── Closing what is open ──────────────────────────────────────────

  lemma SeenElsewhere(view: map<string, Shown>, updates: seq<Update>, id: string, shown: Shown)
    requires forall u <- updates :: u.ToolCallUpdate? && u.id != id
    ensures SeenAll(view[id := shown], updates) == SeenAll(view, updates)[id := shown]
    ensures Accepts(view, updates) ==> Accepts(view[id := shown], updates)
  {
    if updates != [] {
      SeenElsewhere(view, Init(updates), id, shown);
    }
  }

  lemma {:induction false} ClosingsNameTools(tools: seq<ToolState>, status: Status, content: Option<seq<string>>)
    ensures forall u <- Closings(tools, status, content) :: u.ToolCallUpdate? && exists t <- tools :: t.id == u.id
  {
    if tools != [] {
      ClosingsNameTools(Init(tools), status, content);
    }
  }

  lemma ViewSnoc(front: seq<ToolState>, last: ToolState)
    ensures View(front + [last]) == View(front)[last.id := Shown(last.title, last.status)]
  {
    AsMapSnoc(front, last);
  }

  lemma {:induction false} ClosedKeepsIds(tools: seq<ToolState>, status: Status)
    ensures forall i :: 0 <= i < |tools| ==> Closed(tools, status)[i].id == tools[i].id
  {
    if tools != [] {
      ClosedKeepsIds(Init(tools), status);
    }
  }

  lemma ClosingLastIsSeen(view: map<string, Shown>, tool: ToolState, status: Status, content: Option<seq<string>>)
    requires tool.id in view && view[tool.id] == Shown(tool.title, tool.status)
    ensures Accepts(view, Closing(tool, status, content))
    ensures SeenAll(view, Closing(tool, status, content))
         == view[tool.id := Shown(Shut(tool, status).title, Shut(tool, status).status)]
  {
    if IsClosed(tool, status) {
      SeenOne(view, Closing(tool, status, content)[0]);
    } else {
      assert view[tool.id := view[tool.id]] == view;
    }
  }

  /** One more tool is shown and closed behind those of `before`. */
  lemma ClosingOneMoreIsSeen(view: map<string, Shown>, before: seq<Update>, last: ToolState, status: Status, content: Option<seq<string>>)
    requires Accepts(view, before) && forall u <- before :: u.ToolCallUpdate? && u.id != last.id
    ensures var open := view[last.id := Shown(last.title, last.status)];
      && Accepts(open, before + Closing(last, status, content))
      && SeenAll(open, before + Closing(last, status, content))
         == SeenAll(view, before)[last.id := Shown(Shut(last, status).title, Shut(last, status).status)]
  {
    var shown := Shown(last.title, last.status);
    SeenElsewhere(view, before, last.id, shown);
    ClosingLastIsSeen(SeenAll(view, before)[last.id := shown], last, status, content);
    SeenAppend(view[last.id := shown], before, Closing(last, status, content));
  }

  lemma {:induction false} ClosingIsSeen(tools: seq<ToolState>, status: Status, content: Option<seq<string>>)
    requires DistinctIds(tools)
    ensures Accepts(View(tools), Closings(tools, status, content))
    ensures SeenAll(View(tools), Closings(tools, status, content)) == View(Closed(tools, status))
  {
    if tools != [] {
      var front, last := Init(tools), Last(tools);
      var before := Closings(front, status, content);
      ClosingIsSeen(front, status, content);
      ClosingsNameTools(front, status, content);
      LastIsAnother(tools, before);
      ClosingOneMoreIsSeen(View(front), before, last, status, content);
      ViewSnoc(front, last);
      ViewSnoc(Closed(front, status), Shut(last, status));
      InitAndLast(tools);
    }
  }

  lemma LastIsAnother(tools: seq<ToolState>, updates: seq<Update>)
    requires tools != [] && DistinctIds(tools)
    requires forall u <- updates :: u.ToolCallUpdate? && exists t <- Init(tools) :: t.id == u.id
    ensures forall u <- updates :: u.id != Last(tools).id
  {
  }

  lemma FinishingIsFaithful(s: State, status: Status, content: Option<seq<string>>)
    requires DistinctIds(s.tools)
    ensures Faithful(s, Finish(s, status, content))
  {
    ClosingIsSeen(s.tools, status, content);
    ClosedKeepsIds(s.tools, status);
    assert Sent(Finish(s, status, content).translated) == Closings(s.tools, status, content);
  }

  lemma {:induction false} LinkingIsFaithful(s: State, sources: seq<Source>)
    ensures Linked(s, sources).state.tools == s.tools
    ensures Linked(s, sources).translated.interaction == NoInteraction
    ensures forall u <- Linked(s, sources).translated.updates :: u.Link?
  {
    if sources != [] {
      LinkingIsFaithful(s, Init(sources));
    }
  }

  /** A step about something else leaves the calls as they are. */
  lemma SilenceIsFaithful(s: State, r: Step)
    requires DistinctIds(s.tools) && r.state.tools == s.tools
    requires forall u <- r.translated.updates :: !u.ToolCall? && !u.ToolCallUpdate?
    requires !r.translated.interaction.Approval? && !r.translated.interaction.PlanReview?
    ensures Faithful(s, r)
  {
    OthersShowNoCall(View(s.tools), r.translated.updates);
    assert Sent(r.translated) == r.translated.updates;
  }

  lemma SpawningIsFaithful(s: State, subAgentId: string, description: string)
    requires DistinctIds(s.tools)
    ensures Faithful(s, Spawn(s, subAgentId, description))
  {
    var id, title := SUB_AGENT + subAgentId, "Sub-agent: " + description;
    var r := Spawn(s, subAgentId, description);
    if id in AsMap(s.tools) {
      SilenceIsFaithful(s, r);
    } else {
      assert Sent(r.translated) == r.translated.updates;
      AddingIsFaithful(s, ToolState(id, "sub_agent", title, InProgress, ""), ToolCall(id, title, "sub_agent", InProgress, None), r);
    }
  }

  lemma MergingBackIsFaithful(s: State, subAgentId: string, detail: string)
    requires DistinctIds(s.tools)
    ensures Faithful(s, CallTranslated(s, MergeBack(subAgentId, detail)))
  {
    var id := SUB_AGENT + subAgentId;
    var r := CallTranslated(s, MergeBack(subAgentId, detail));
    assert Sent(r.translated) == r.translated.updates;
    if id in AsMap(s.tools) {
      SeenOne(View(s.tools), ToolCallUpdate(id, None, None, Some([detail])));
    }
  }

  lemma CompletingIsFaithful(s: State, subAgentId: string, cost: Option<real>, summary: string)
    requires DistinctIds(s.tools)
    ensures Faithful(s, Completes(s, subAgentId, cost, summary))
  {
    var id := SUB_AGENT + subAgentId;
    var counted :=
      if id in AsMap(s.tools) && cost.Some? then CostUpdated(s.(endedTurnsCost := Add(s.endedTurnsCost, cost))) else s;
    MovingIsFaithful(counted, id, Completed, Some([summary]));
  }

  lemma DecidingIsFaithful(s: State, toolCallId: string, subAgentId: string, allow: bool, reason: string)
    requires DistinctIds(s.tools)
    ensures Faithful(s, Deciding(s, toolCallId, subAgentId, allow, reason))
  {
    var key := DecisionKey(toolCallId, subAgentId);
    var content := if allow then None else Some([Denial(reason)]);
    var status := if allow then InProgress else Broken;
    MovingIsFaithful(s, key, status, content);
    DecidedSendsTheMove(s, toolCallId, subAgentId, allow, reason);
  }

  lemma DecidedSendsTheMove(s: State, toolCallId: string, subAgentId: string, allow: bool, reason: string)
    ensures var moved := Moved(s, DecisionKey(toolCallId, subAgentId), if allow then InProgress else Broken,
                               if allow then None else Some([Denial(reason)]));
      var r := Deciding(s, toolCallId, subAgentId, allow, reason);
      r.state == moved.state && Sent(r.translated) == Sent(moved.translated)
  {
  }

  lemma RequestsAreFaithful(s: State, b: CallBody)
    requires DistinctIds(s.tools) && !IsToolUse(b)
    ensures Faithful(s, CallTranslated(s, b))
  {
    match b
    case Spawned(subAgentId, description) => SpawningIsFaithful(s, subAgentId, description);
    case Complete(subAgentId, cost, summary) => CompletingIsFaithful(s, subAgentId, cost, summary);
    case Failed(subAgentId, summary) => MovingIsFaithful(s, SUB_AGENT + subAgentId, Broken, Some([summary]));
    case MergeBack(subAgentId, detail) => MergingBackIsFaithful(s, subAgentId, detail);
    case ApprovalRequired(toolCallId, subAgentId, name, description, reasons) =>
      ApprovingIsFaithful(s, toolCallId, subAgentId, name, description, reasons);
    case ApprovalDecided(toolCallId, subAgentId, allow, reason) => DecidingIsFaithful(s, toolCallId, subAgentId, allow, reason);
    case PlanProposal(toolCallId, steps, plan, autoApproved) => ProposingIsFaithful(s, toolCallId, steps, plan, autoApproved);
  }

  lemma CodeRunIsFaithful(s: State, code: string)
    requires DistinctIds(s.tools)
    ensures Faithful(s, CodeRun(s, code))
  {
    var r := CodeRun(s, code);
    var call := r.translated.updates[0];
    assert Sent(r.translated) == [call];
    AddingIsFaithful(s, ToolState(call.id, "code_execution", call.title, InProgress, ""), call, r);
  }

  lemma CallsAreFaithful(s: State, b: CallBody)
    requires DistinctIds(s.tools)
    ensures Faithful(s, CallTranslated(s, b))
  {
    match b
    case ExecutableCode(code) => CodeRunIsFaithful(s, code);
    case CodeExecutionResult(succeeded, output) =>
      MovingIsFaithful(s, "code-execution-" + Decimal(s.codeRuns), if succeeded then Completed else Broken, Some([output]));
    case ToolExecution(key, name, progress, result, caption) => ToolStepIsFaithful(s, key, name, progress, result, caption, "");
    case ProviderCall(key, name, claim, result) =>
      ToolStepIsFaithful(s, key, if name != "" then name else "tool", ClaimedProgress(claim, result), result, "", "");
    case SubAgentToolExecution(subAgentId, key, name, progress, result, description) =>
      ToolStepIsFaithful(s, Within(subAgentId, key), name, progress, result, "", description);
    case ToolOutput(key, name, printed, data) => PrintingIsFaithful(s, key, name, printed, data);
    case SubAgentToolOutput(subAgentId, key, name, printed, data) =>
      PrintingIsFaithful(s, Within(subAgentId, key), name, printed, data);
    case _ =>
      RequestsAreFaithful(s, b);
  }

  predicate TouchesTools(b: Body) {
    b.About? || b.TurnDone? || b.TurnError?
  }

  lemma OthersAreSilent(costBefore: real, s: State, b: Body)
    requires !TouchesTools(b)
    ensures var r := TranslateBody(costBefore, s, b);
      && r.state.tools == s.tools
      && (forall u <- r.translated.updates :: !u.ToolCall? && !u.ToolCallUpdate?)
      && !r.translated.interaction.Approval? && !r.translated.interaction.PlanReview?
  {
    if b.Sources? {
      LinkingIsFaithful(s, b.sources);
    }
  }

  lemma EveryStepIsFaithful(costBefore: real, s: State, b: Body)
    requires DistinctIds(s.tools)
    ensures Faithful(s, TranslateBody(costBefore, s, b))
  {
    if b.About? {
      CallsAreFaithful(s, b.call);
    } else if b.TurnDone? {
      FinishingIsFaithful(Ended(s, b.conversationId, b.refusal, b.cost), Completed, None);
    } else if b.TurnError? {
      FinishingIsFaithful(s.(outcome := s.outcome.(error := Some(b.message))), Broken, None);
    } else {
      OthersAreSilent(costBefore, s, b);
      SilenceIsFaithful(s, TranslateBody(costBefore, s, b));
    }
  }

  // ── Every run ─────────────────────────────────────────────────────

  /** After every sequence of events the editor shows the translator's calls, with their titles and statuses. */
  lemma {:induction false} EditorShowsTheCalls(costBefore: real, bodies: seq<Body>)
    ensures DistinctIds(Run(costBefore, bodies).tools)
    ensures Accepts(map[], Log(costBefore, bodies))
    ensures SeenAll(map[], Log(costBefore, bodies)) == View(Run(costBefore, bodies).tools)
  {
    if bodies != [] {
      var before := Run(costBefore, Init(bodies));
      EditorShowsTheCalls(costBefore, Init(bodies));
      EveryStepIsFaithful(costBefore, before, Last(bodies));
      SeenAppend(map[], Log(costBefore, Init(bodies)), Sent(TranslateBody(costBefore, before, Last(bodies)).translated));
    }
  }

  ghost predicate Announced(updates: seq<Update>, id: string) {
    exists j :: 0 <= j < |updates| && updates[j].ToolCall? && updates[j].id == id
  }

  lemma {:induction false} ShownIsAnnounced(updates: seq<Update>, id: string)
    ensures id in SeenAll(map[], updates) <==> Announced(updates, id)
  {
    if updates != [] {
      var front, last := Init(updates), Last(updates);
      ShownIsAnnounced(front, id);
      AnnouncedSnoc(front, last, id);
      assert updates == front + [last];
    }
  }

  lemma AnnouncedSnoc(front: seq<Update>, last: Update, id: string)
    ensures Announced(front + [last], id) <==> Announced(front, id) || (last.ToolCall? && last.id == id)
  {
    if Announced(front, id) {
      var j :| 0 <= j < |front| && front[j].ToolCall? && front[j].id == id;
      assert (front + [last])[j] == front[j];
    }
    assert (front + [last])[|front|] == last;
  }

  lemma {:induction false} AcceptedIsAnnounced(updates: seq<Update>, i: nat)
    requires Accepts(map[], updates) && i < |updates| && updates[i].ToolCallUpdate?
    ensures Announced(updates[..i], updates[i].id)
  {
    if i == |updates| - 1 {
      ShownIsAnnounced(Init(updates), updates[i].id);
    } else {
      AcceptedIsAnnounced(Init(updates), i);
      assert Init(updates)[..i] == updates[..i];
    }
  }

  /** Every update of a call comes after the call's announcement. */
  lemma EveryUpdateIsAnnounced(costBefore: real, bodies: seq<Body>, i: nat)
    requires i < |Log(costBefore, bodies)| && Log(costBefore, bodies)[i].ToolCallUpdate?
    ensures Announced(Log(costBefore, bodies)[..i], Log(costBefore, bodies)[i].id)
  {
    EditorShowsTheCalls(costBefore, bodies);
    AcceptedIsAnnounced(Log(costBefore, bodies), i);
  }

  lemma {:induction false} ClosedIs(tools: seq<ToolState>, status: Status)
    ensures AsMap(Closed(tools, status)).Keys == AsMap(tools).Keys
    ensures forall id <- AsMap(tools) :: AsMap(Closed(tools, status))[id] == Shut(AsMap(tools)[id], status)
  {
    if tools != [] {
      var front, last := Init(tools), Last(tools);
      ClosedIs(front, status);
      AsMapSnoc(Closed(front, status), Shut(last, status));
    }
  }

  /** What the editor shows after the events. */
  function Display(costBefore: real, bodies: seq<Body>): map<string, Shown> {
    SeenAll(map[], Log(costBefore, bodies))
  }

  /** `after` is `before` with every open call, but those kept, in `status`. */
  ghost predicate ClosesAll(before: map<string, Shown>, after: map<string, Shown>, status: Status, kept: string -> bool) {
    && after.Keys == before.Keys
    && forall id <- before ::
         after[id] == if IsOpen(before[id].status) && !kept(id) then Shown(before[id].title, status) else before[id]
  }

  lemma ViewOfClosed(tools: seq<ToolState>, status: Status)
    ensures ClosesAll(View(tools), View(Closed(tools, status)), status, (id: string) => SUB_AGENT <= id && status.Completed?)
  {
    ClosedIs(tools, status);
    KeyedById(tools);
  }

  lemma RunSnoc(costBefore: real, bodies: seq<Body>, b: Body)
    ensures Run(costBefore, bodies + [b]) == TranslateBody(costBefore, Run(costBefore, bodies), b).state
    ensures Log(costBefore, bodies + [b]) == Log(costBefore, bodies) + Sent(TranslateBody(costBefore, Run(costBefore, bodies), b).translated)
  {
    assert Init(bodies + [b]) == bodies;
  }

  /** `done` completes every open call but the sub-agents, and touches no other. */
  lemma AfterDone(costBefore: real, bodies: seq<Body>, conversationId: string, refusal: bool, cost: Option<real>)
    ensures ClosesAll(Display(costBefore, bodies), Display(costBefore, bodies + [TurnDone(conversationId, refusal, cost)]),
                      Completed, (id: string) => SUB_AGENT <= id)
  {
    var b := TurnDone(conversationId, refusal, cost);
    EditorShowsTheCalls(costBefore, bodies);
    EditorShowsTheCalls(costBefore, bodies + [b]);
    RunSnoc(costBefore, bodies, b);
    ViewOfClosed(Run(costBefore, bodies).tools, Completed);
  }

  /** `error` fails every open call. */
  lemma AfterError(costBefore: real, bodies: seq<Body>, message: string)
    ensures ClosesAll(Display(costBefore, bodies), Display(costBefore, bodies + [TurnError(message)]), Broken, (id: string) => false)
  {
    EditorShowsTheCalls(costBefore, bodies);
    EditorShowsTheCalls(costBefore, bodies + [TurnError(message)]);
    RunSnoc(costBefore, bodies, TurnError(message));
    ViewOfClosed(Run(costBefore, bodies).tools, Broken);
  }

  /** So does a cancelled turn, whose last updates say so. */
  lemma AfterCancelling(costBefore: real, bodies: seq<Body>)
    ensures var last := Closings(Run(costBefore, bodies).tools, Broken, Some(["Cancelled."]));
      && Accepts(map[], Log(costBefore, bodies) + last)
      && ClosesAll(Display(costBefore, bodies), SeenAll(map[], Log(costBefore, bodies) + last), Broken, (id: string) => false)
  {
    var tools := Run(costBefore, bodies).tools;
    EditorShowsTheCalls(costBefore, bodies);
    ClosingIsSeen(tools, Broken, Some(["Cancelled."]));
    SeenAppend(map[], Log(costBefore, bodies), Closings(tools, Broken, Some(["Cancelled."])));
    ViewOfClosed(tools, Broken);
  }

  // ── What a tool's event does ──────────────────────────────────────

  function StatusAfter(known: bool, before: Status, progress: Progress, result: ToolResult): Status {
    match progress
    case Streaming => if known then before else Pending
    case Calling => InProgress
    case Done => if IsFailure(result) then Broken else Completed
    case Errored => Broken
  }

  lemma SettingSame<T>(m: map<string, T>, key: string)
    requires key in m
    ensures m[key := m[key]] == m
  {
  }

  lemma EnsuringShows(s: State, key: string, name: string, caption: string, prefix: string)
    ensures var before := View(s.tools);
      View(Ensuring(s, Some(key), name, caption, prefix).state.tools)
      == before[key := if key in before then before[key] else Shown(Title(prefix, caption, name), Pending)]
  {
    if key in AsMap(s.tools) {
      SettingSame(View(s.tools), key);
    } else {
      ViewPut(s.tools, ToolState(key, name, Title(prefix, caption, name), Pending, ""));
    }
  }

  lemma AdvancingShows(e: Ensured, name: string, progress: Progress, result: ToolResult, caption: string, prefix: string)
    requires e.id in AsMap(e.state.tools) && !progress.Streaming?
    ensures var view := View(e.state.tools);
      View(Put(e.state.tools, AdvancedBy(e, name, progress, result, caption, prefix).0))
      == view[e.id := Shown(if caption == "" then view[e.id].title else Title(prefix, caption, name),
                            StatusAfter(true, Pending, progress, result))]
  {
    KeyedById(e.state.tools);
    ViewPut(e.state.tools, AdvancedBy(e, name, progress, result, caption, prefix).0);
  }

  lemma SettingTwice<T>(m: map<string, T>, key: string, x: T, y: T)
    ensures m[key := x][key := y] == m[key := y]
  {
  }

  /** The call as shown after an event about it. */
  function ShownAfter(known: bool, before: Shown, progress: Progress, result: ToolResult, caption: string, title: string): Shown {
    Shown(if known && (caption == "" || progress.Streaming?) then before.title else title,
          StatusAfter(known, before.status, progress, result))
  }

  lemma StreamingShows(s: State, key: string, name: string, result: ToolResult, caption: string, prefix: string)
    ensures var view := View(s.tools);
      View(ToolStep(s, Some(key), name, Streaming, result, caption, prefix).state.tools)
      == view[key := if key in view then view[key] else Shown(Title(prefix, caption, name), Pending)]
  {
    EnsuringShows(s, key, name, caption, prefix);
    ToolStepSends(s, Some(key), name, Streaming, result, caption, prefix);
  }

  lemma ProgressShows(s: State, key: string, name: string, progress: Progress, result: ToolResult, caption: string, prefix: string)
    requires !progress.Streaming?
    ensures var view := View(s.tools);
      View(ToolStep(s, Some(key), name, progress, result, caption, prefix).state.tools)
      == view[key := Shown(if key in view && caption == "" then view[key].title else Title(prefix, caption, name),
                           StatusAfter(true, Pending, progress, result))]
  {
    var e := Ensuring(s, Some(key), name, caption, prefix);
    var ensured := View(e.state.tools)[key];
    EnsuringShows(s, key, name, caption, prefix);
    ToolStepSends(s, Some(key), name, progress, result, caption, prefix);
    AdvancingShows(e, name, progress, result, caption, prefix);
    SettingTwice(View(s.tools), key, ensured,
                 Shown(if caption == "" then ensured.title else Title(prefix, caption, name), StatusAfter(true, Pending, progress, result)));
  }

  /** An event with an id shows its call in the event's status, and changes no other. */
  lemma ToolStepShows(s: State, key: string, name: string, progress: Progress, result: ToolResult, caption: string, prefix: string)
    ensures var view := View(s.tools);
      View(ToolStep(s, Some(key), name, progress, result, caption, prefix).state.tools)
      == view[key := ShownAfter(key in view, if key in view then view[key] else Shown("", Pending),
                                progress, result, caption, Title(prefix, caption, name))]
  {
    if progress.Streaming? {
      StreamingShows(s, key, name, result, caption, prefix);
    } else {
      ProgressShows(s, key, name, progress, result, caption, prefix);
    }
  }

  lemma DisplayIsView(costBefore: real, bodies: seq<Body>)
    ensures Display(costBefore, bodies) == View(Run(costBefore, bodies).tools)
  {
    EditorShowsTheCalls(costBefore, bodies);
  }

  lemma ToolEventIsAStep(costBefore: real, bodies: seq<Body>, key: string, name: string, progress: Progress, result: ToolResult, caption: string)
    ensures Run(costBefore, bodies + [About(ToolExecution(Some(key), name, progress, result, caption))])
         == ToolStep(Run(costBefore, bodies), Some(key), name, progress, result, caption, "").state
  {
    RunSnoc(costBefore, bodies, About(ToolExecution(Some(key), name, progress, result, caption)));
  }

  /** As the editor sees it, for any tool event with an id, after any events. */
  lemma ToolEventShows(costBefore: real, bodies: seq<Body>, key: string, name: string, progress: Progress, result: ToolResult, caption: string)
    ensures var view := Display(costBefore, bodies);
      Display(costBefore, bodies + [About(ToolExecution(Some(key), name, progress, result, caption))])
      == view[key := ShownAfter(key in view, if key in view then view[key] else Shown("", Pending),
                                progress, result, caption, Title("", caption, name))]
  {
    ToolStepShows(Run(costBefore, bodies), key, name, progress, result, caption, "");
    ToolEventIsAStep(costBefore, bodies, key, name, progress, result, caption);
    DisplayIsView(costBefore, bodies);
    DisplayIsView(costBefore, bodies + [About(ToolExecution(Some(key), name, progress, result, caption))]);
  }

  // ── Approvals and their decisions ─────────────────────────────────

  lemma {:induction false} SeenKeeps(view: map<string, Shown>, updates: seq<Update>)
    ensures view.Keys <= SeenAll(view, updates).Keys
  {
    if updates != [] {
      SeenKeeps(view, Init(updates));
    }
  }

  /** A call once shown stays known. */
  lemma {:induction false} CallsStayKnown(costBefore: real, bodies: seq<Body>, more: seq<Body>)
    ensures Display(costBefore, bodies).Keys <= Display(costBefore, bodies + more).Keys
  {
    if more == [] {
      assert bodies + more == bodies;
    } else {
      CallsStayKnown(costBefore, bodies, Init(more));
      assert bodies + more == bodies + Init(more) + [Last(more)];
      RunSnoc(costBefore, bodies + Init(more), Last(more));
      var sent := Sent(TranslateBody(costBefore, Run(costBefore, bodies + Init(more)), Last(more)).translated);
      SeenAppend(map[], Log(costBefore, bodies + Init(more)), sent);
      SeenKeeps(Display(costBefore, bodies + Init(more)), sent);
    }
  }

  ghost predicate Asks(t: Translated, id: string) {
    t.interaction.Approval? && t.interaction.call.ToolCallUpdate? && t.interaction.call.id == id
  }

  /** A decided call leaves the queue and moves: into progress when allowed, else to failed. */
  ghost predicate Decides(t: Translated, id: string, allow: bool) {
    && t.interaction == Decided(id)
    && |t.updates| == 1 && t.updates[0].ToolCallUpdate? && t.updates[0].id == id
    && t.updates[0].newStatus == Some(if allow then InProgress else Broken)
  }

  lemma ApprovalOpensItsKey(s: State, approval: CallBody)
    requires approval.ApprovalRequired?
    ensures var r := CallTranslated(s, approval);
      var key := DecisionKey(approval.toolCallId, approval.subAgentId);
      Asks(r.translated, key) && key in View(r.state.tools)
  {
    var e := Ensuring(s, Some(DecisionKey(approval.toolCallId, approval.subAgentId)), approval.name, "", approval.description);
    PutIsSet(e.state.tools, AsMap(e.state.tools)[e.id].(status := Pending));
  }

  lemma DecisionMovesItsKey(s: State, decision: CallBody)
    requires decision.ApprovalDecided? && DecisionKey(decision.toolCallId, decision.subAgentId) in View(s.tools)
    ensures Decides(CallTranslated(s, decision).translated, DecisionKey(decision.toolCallId, decision.subAgentId), decision.allow)
  {
  }

  /** A decision, however many events later, is about the call its approval was opened under. */
  lemma DecisionFindsItsApproval(costBefore: real, before: seq<Body>, approval: CallBody, between: seq<Body>, decision: CallBody)
    requires approval.ApprovalRequired? && decision.ApprovalDecided?
    requires approval.toolCallId == decision.toolCallId && approval.subAgentId == decision.subAgentId
    ensures var key := DecisionKey(approval.toolCallId, approval.subAgentId);
      && Asks(CallTranslated(Run(costBefore, before), approval).translated, key)
      && Decides(CallTranslated(Run(costBefore, before + [About(approval)] + between), decision).translated, key, decision.allow)
  {
    ApprovalOpensItsKey(Run(costBefore, before), approval);
    ApprovedStaysKnown(costBefore, before, approval, between);
    DecisionMovesItsKey(Run(costBefore, before + [About(approval)] + between), decision);
  }

  lemma ApprovedStaysKnown(costBefore: real, before: seq<Body>, approval: CallBody, between: seq<Body>)
    requires approval.ApprovalRequired?
    ensures DecisionKey(approval.toolCallId, approval.subAgentId)
         in View(Run(costBefore, before + [About(approval)] + between).tools)
  {
    RunSnoc(costBefore, before, About(approval));
    ApprovalOpensItsKey(Run(costBefore, before), approval);
    KnownLater(costBefore, before + [About(approval)], between, DecisionKey(approval.toolCallId, approval.subAgentId));
  }

  lemma KnownLater(costBefore: real, bodies: seq<Body>, more: seq<Body>, id: string)
    requires id in View(Run(costBefore, bodies).tools)
    ensures id in View(Run(costBefore, bodies + more).tools)
  {
    EditorShowsTheCalls(costBefore, bodies);
    CallsStayKnown(costBefore, bodies, more);
    EditorShowsTheCalls(costBefore, bodies + more);
  }

  /** A plan is opened under its own id: the decision meets it exactly when it names no sub-agent. */
  lemma DecisionMeetsItsPlan(
    costBefore: real, s: State, later: State, id: string, subAgentId: string,
    steps: seq<string>, plan: string, allow: bool, reason: string)
    ensures var asking := TranslateBody(costBefore, s, About(PlanProposal(id, steps, plan, false))).translated.interaction;
      var decided := TranslateBody(costBefore, later, About(ApprovalDecided(id, subAgentId, allow, reason))).translated.interaction;
      && asking.PlanReview? && asking.call.ToolCallUpdate?
      && (decided == Decided(asking.call.id) <==> subAgentId == "")
  {
    assert |DecisionKey(id, subAgentId)| != |id| <==> subAgentId != "";
  }

  // ── Calls without an id ───────────────────────────────────────────

  /** A nameless update goes to the open call of that tool announced last. */
  lemma {:induction false} NewestOpenIsLast(tools: seq<ToolState>, name: string)
    ensures NewestOpen(tools, name) == None <==> forall i :: 0 <= i < |tools| && tools[i].name == name ==> !IsOpen(tools[i].status)
    ensures NewestOpen(tools, name).Some? ==>
      exists i :: 0 <= i < |tools| && tools[i].id == NewestOpen(tools, name).value && tools[i].name == name && IsOpen(tools[i].status)
               && forall j :: i < j < |tools| && tools[j].name == name ==> !IsOpen(tools[j].status)
  {
    if tools != [] {
      var front, n := Init(tools), |tools| - 1;
      NewestOpenIsLast(front, name);
      assert forall i :: 0 <= i < n ==> front[i] == tools[i];
      if tools[n].name == name && IsOpen(tools[n].status) {
        assert tools[n].id == NewestOpen(tools, name).value;
      } else if NewestOpen(tools, name).Some? {
        var i :| 0 <= i < n && front[i].id == NewestOpen(front, name).value && front[i].name == name && IsOpen(front[i].status)
              && forall j :: i < j < n && front[j].name == name ==> !IsOpen(front[j].status);
        assert tools[i].id == NewestOpen(tools, name).value;
        assert forall j :: i < j < |tools| && tools[j].name == name ==> j == n || tools[j] == front[j];
      }
    }
  }

  // ── The newest sequence number ────────────────────────────────────

  function NewestSeq(numbers: seq<Option<int>>): Option<int> {
    if numbers == [] then None else Newer(NewestSeq(Init(numbers)), Last(numbers))
  }

  /** A subscription resumes after the greatest number seen. */
  lemma {:induction false} NewestSeqIsMaximum(numbers: seq<Option<int>>)
    ensures NewestSeq(numbers) == None <==> forall i :: 0 <= i < |numbers| ==> numbers[i] == None
    ensures NewestSeq(numbers).Some? ==> NewestSeq(numbers) in numbers
    ensures forall i :: 0 <= i < |numbers| && numbers[i].Some? ==>
              NewestSeq(numbers).Some? && numbers[i].value <= NewestSeq(numbers).value
  {
    if numbers != [] {
      var front := Init(numbers);
      NewestSeqIsMaximum(front);
      assert forall i :: 0 <= i < |front| ==> front[i] == numbers[i];
      assert NewestSeq(front) in front ==> NewestSeq(front) in numbers;
      assert Last(numbers) in numbers;
    }
  }
}
