/**
 * Splitting a response into text, thinking blocks and tool calls for
 * storage, and laying a stored turn out again in the order the model
 * produced it. Thinking blocks go back verbatim or not at all.
 */
module ThinkingLayout {
  import opened Prelude
  import opened AnthropicBlocks

  /** A thinking block in storage, with where it goes: in front of a tool call ("" for none), or after everything. */
  datatype StoredThinking = StoredThinking(kind: Kind, beforeToolCallId: string, trailing: bool)

  datatype ToolCall = ToolCall(id: string, name: string, args: string)

  datatype Extracted = Extracted(
    text: string,
    thinkingBlocks: seq<StoredThinking>,
    toolCalls: seq<ToolCall>,
    sawContent: bool)

  const NOTHING := Extracted("", [], [], false)

  // ── Splitting ─────────────────────────────────────────────────────

  /** A tool call claims the thinking blocks that followed other content. */
  function Anchored(stored: seq<StoredThinking>, id: string): seq<StoredThinking> {
    if stored == [] then [] else Anchored(Init(stored), id) + [AnchoredOne(Last(stored), id)]
  }

  function AnchoredOne(b: StoredThinking, id: string): StoredThinking {
    if b.trailing then StoredThinking(b.kind, id, false) else b
  }

  function Take(s: Extracted, kind: Kind, beforeFallback: bool): Extracted {
    if kind.Fallback? then s
    else if IsThinking(kind) then
      if beforeFallback || !IsReplayable(kind) then s
      else s.(thinkingBlocks := s.thinkingBlocks + [StoredThinking(kind, "", s.sawContent)])
    else if kind.ToolUse? then
      if beforeFallback then s
      else s.(
        thinkingBlocks := Anchored(s.thinkingBlocks, kind.id),
        toolCalls := s.toolCalls + [ToolCall(kind.id, kind.name, kind.input)],
        sawContent := true)
    else s.(text := s.text + (if kind.Text? then kind.text else ""), sawContent := true)
  }

  function TakeAll(s: Extracted, kinds: seq<Kind>, beforeFallback: bool): Extracted {
    if kinds == [] then s else Take(TakeAll(s, Init(kinds), beforeFallback), Last(kinds), beforeFallback)
  }

  /** The position of the last fallback, -1 when none took over. */
  function LastFallback(kinds: seq<Kind>): (at: int)
    ensures -1 <= at < |kinds|
    ensures at >= 0 ==> kinds[at].Fallback?
    ensures forall i :: at < i < |kinds| ==> !kinds[i].Fallback?
  {
    if kinds == [] then -1
    else if Last(kinds).Fallback? then |kinds| - 1
    else LastFallback(Init(kinds))
  }

  /** What the declining models produced, and what the model that answered produced. */
  function Declined(kinds: seq<Kind>): seq<Kind> {
    if LastFallback(kinds) < 0 then [] else kinds[..LastFallback(kinds)]
  }

  function Answered(kinds: seq<Kind>): seq<Kind> {
    kinds[LastFallback(kinds) + 1..]
  }

  function Extract(kinds: seq<Kind>): Extracted {
    TakeAll(TakeAll(NOTHING, Declined(kinds), true), Answered(kinds), false)
  }

  lemma {:induction false} TakeAllAppends(s: Extracted, a: seq<Kind>, b: seq<Kind>, beforeFallback: bool)
    ensures TakeAll(s, a + b, beforeFallback) == TakeAll(TakeAll(s, a, beforeFallback), b, beforeFallback)
  {
    if b == [] {
      assert a + b == a;
    } else {
      TakeAllAppends(s, a, Init(b), beforeFallback);
      assert Init(a + b) == a + Init(b) && Last(a + b) == Last(b);
    }
  }

  /** The positions in `stored` that wait for a tool call. */
  ghost predicate ArePending(stored: seq<StoredThinking>, pending: seq<nat>) {
    && (forall i :: 0 <= i < |pending| ==> pending[i] < |stored| && stored[pending[i]].trailing)
    && (forall i :: 0 <= i < |stored| && stored[i].trailing ==> i in pending)
  }

  lemma {:induction false} AnchoredAt(stored: seq<StoredThinking>, id: string)
    ensures |Anchored(stored, id)| == |stored|
    ensures forall i :: 0 <= i < |stored| ==> Anchored(stored, id)[i] == AnchoredOne(stored[i], id)
  {
    if stored != [] {
      AnchoredAt(Init(stored), id);
    }
  }

  /** The pending blocks are placed one by one in front of the call. */
  method PlacePending(stored: seq<StoredThinking>, pending: seq<nat>, id: string) returns (placed: seq<StoredThinking>)
    requires ArePending(stored, pending)
    ensures placed == Anchored(stored, id)
    ensures forall i :: 0 <= i < |placed| ==> !placed[i].trailing
  {
    placed := stored;
    for i := 0 to |pending|
      invariant |placed| == |stored|
      invariant forall k :: 0 <= k < |stored| ==>
        placed[k] == if k in pending[..i] then StoredThinking(stored[k].kind, id, false) else stored[k]
    {
      var at := pending[i];
      assert pending[..i + 1] == pending[..i] + [at];
      placed := placed[at := StoredThinking(stored[at].kind, id, false)];
    }
    AnchoredAt(stored, id);
    assert pending[..|pending|] == pending;
  }

  /** The loop's state after `n` blocks. */
  function TakenUpTo(kinds: seq<Kind>, n: nat, lastFallback: int): Extracted
    requires n <= |kinds|
  {
    if n == 0 then NOTHING else Take(TakenUpTo(kinds, n - 1, lastFallback), kinds[n - 1], n - 1 < lastFallback)
  }

  lemma {:induction false} TakenBefore(kinds: seq<Kind>, n: nat, lastFallback: int)
    requires n <= |kinds| && n <= lastFallback
    ensures TakenUpTo(kinds, n, lastFallback) == TakeAll(NOTHING, kinds[..n], true)
  {
    if n > 0 {
      TakenBefore(kinds, n - 1, lastFallback);
      assert Init(kinds[..n]) == kinds[..n - 1];
    }
  }

  lemma TakenAtFallback(kinds: seq<Kind>)
    ensures TakenUpTo(kinds, LastFallback(kinds) + 1, LastFallback(kinds)) == TakeAll(NOTHING, Declined(kinds), true)
  {
    var at := LastFallback(kinds);
    if at >= 0 {
      TakenBefore(kinds, at, at);
      assert TakenUpTo(kinds, at + 1, at) == TakenUpTo(kinds, at, at);
    }
  }

  lemma {:induction false} TakenAfter(kinds: seq<Kind>, n: nat)
    requires LastFallback(kinds) < n <= |kinds|
    ensures TakenUpTo(kinds, n, LastFallback(kinds))
         == TakeAll(TakeAll(NOTHING, Declined(kinds), true), kinds[LastFallback(kinds) + 1..n], false)
  {
    var at := LastFallback(kinds);
    if n == at + 1 {
      TakenAtFallback(kinds);
      assert kinds[at + 1..n] == [];
    } else {
      TakenAfter(kinds, n - 1);
      assert kinds[at + 1..n] == kinds[at + 1..n - 1] + [kinds[n - 1]];
      TakeAllSnoc(TakeAll(NOTHING, Declined(kinds), true), kinds[at + 1..n - 1], kinds[n - 1]);
    }
  }

  lemma TakeAllSnoc(s: Extracted, kinds: seq<Kind>, next: Kind)
    ensures TakeAll(s, kinds + [next], false) == Take(TakeAll(s, kinds, false), next, false)
  {
    assert Init(kinds + [next]) == kinds;
  }

  lemma ToTheEnd<T>(s: seq<T>, from: nat)
    requires from <= |s|
    ensures s[from..|s|] == s[from..]
  {
  }

  lemma TakenIsExtracted(kinds: seq<Kind>)
    ensures TakenUpTo(kinds, |kinds|, LastFallback(kinds)) == Extract(kinds)
  {
    ToTheEnd(kinds, LastFallback(kinds) + 1);
    TakenAfter(kinds, |kinds|);
  }

  lemma OthersStayPending(stored: seq<StoredThinking>, pending: seq<nat>, kind: Kind)
    requires ArePending(stored, pending)
    ensures ArePending(stored + [StoredThinking(kind, "", false)], pending)
  {
  }

  /** A block that followed other content is pending at its place behind all others. */
  lemma PendingGrows(stored: seq<StoredThinking>, pending: seq<nat>, kind: Kind)
    requires ArePending(stored, pending)
    ensures ArePending(stored + [StoredThinking(kind, "", true)], pending + [|stored|])
  {
    var grown, all := stored + [StoredThinking(kind, "", true)], pending + [|stored|];
    assert all[|pending|] == |stored|;
    forall i | 0 <= i < |grown| && grown[i].trailing
      ensures i in all
    {
      if i < |stored| {
        assert stored[i].trailing && i in pending;
      }
    }
  }

  method ExtractResponseContent(kinds: seq<Kind>) returns (e: Extracted)
    ensures e == Extract(kinds)
  {
    var lastFallbackIndex := LastFallback(kinds);
    var text, thinkingBlocks: seq<StoredThinking>, toolCalls: seq<ToolCall>, sawContent := "", [], [], false;
    var pendingPlacement: seq<nat> := [];
    for i := 0 to |kinds|
      invariant ArePending(thinkingBlocks, pendingPlacement)
      invariant Extracted(text, thinkingBlocks, toolCalls, sawContent) == TakenUpTo(kinds, i, lastFallbackIndex)
    {
      var kind := kinds[i];
      var beforeFallback := i < lastFallbackIndex;
      if kind.Fallback? {
        continue;
      }
      if IsThinking(kind) {
        if beforeFallback || !IsReplayable(kind) {
          continue;
        }
        OthersStayPending(thinkingBlocks, pendingPlacement, kind);
        if sawContent {
          PendingGrows(thinkingBlocks, pendingPlacement, kind);
          pendingPlacement := pendingPlacement + [|thinkingBlocks|];
        }
        thinkingBlocks := thinkingBlocks + [StoredThinking(kind, "", sawContent)];
        continue;
      }
      if kind.ToolUse? {
        if beforeFallback {
          continue;
        }
        thinkingBlocks := PlacePending(thinkingBlocks, pendingPlacement, kind.id);
        pendingPlacement := [];
        toolCalls := toolCalls + [ToolCall(kind.id, kind.name, kind.input)];
      }
      sawContent := true;
      if kind.Text? {
        text := text + kind.text;
      }
    }
    TakenIsExtracted(kinds);
    e := Extracted(text, thinkingBlocks, toolCalls, sawContent);
  }

  // ── Laying out ────────────────────────────────────────────────────

  datatype Place = Leading | Before(id: string) | Trailing

  function PlaceOf(b: StoredThinking, toolIds: seq<string>): Place {
    if b.beforeToolCallId != "" && b.beforeToolCallId in toolIds then Before(b.beforeToolCallId)
    else if b.beforeToolCallId != "" || b.trailing then Trailing
    else Leading
  }

  /** The thinking blocks that go to `place`, in order. */
  function At(stored: seq<StoredThinking>, toolIds: seq<string>, place: Place): seq<Kind> {
    if stored == [] then []
    else At(Init(stored), toolIds, place) + (if PlaceOf(Last(stored), toolIds) == place then [Last(stored).kind] else [])
  }

  function ToolUses(calls: seq<ToolCall>): seq<Kind> {
    if calls == [] then [] else ToolUses(Init(calls)) + [ToolUse(Last(calls).id, Last(calls).name, Last(calls).args)]
  }

  function CallIds(calls: seq<ToolCall>): seq<string> {
    if calls == [] then [] else CallIds(Init(calls)) + [Last(calls).id]
  }

  /** Each call with the thinking that introduced it. */
  function Introduced(stored: seq<StoredThinking>, toolIds: seq<string>, calls: seq<ToolCall>): seq<Kind> {
    if calls == [] then []
    else
      Introduced(stored, toolIds, Init(calls)) + At(stored, toolIds, Before(Last(calls).id))
      + [ToolUse(Last(calls).id, Last(calls).name, Last(calls).args)]
  }

  function Layout(stored: seq<StoredThinking>, texts: seq<Kind>, calls: seq<ToolCall>): seq<Kind> {
    var toolIds := CallIds(calls);
    At(stored, toolIds, Leading) + texts + (Introduced(stored, toolIds, calls) + At(stored, toolIds, Trailing))
  }

  /** What waits for each call. */
  ghost predicate AreQueues(beforeTool: map<string, seq<Kind>>, stored: seq<StoredThinking>, toolIds: seq<string>) {
    forall id :: At(stored, toolIds, Before(id)) == if id in beforeTool then beforeTool[id] else []
  }

  lemma AtSnoc(stored: seq<StoredThinking>, last: StoredThinking, toolIds: seq<string>, place: Place)
    ensures At(stored + [last], toolIds, place) == At(stored, toolIds, place) + (if PlaceOf(last, toolIds) == place then [last.kind] else [])
  {
    assert Init(stored + [last]) == stored;
  }

  function Enqueued(beforeTool: map<string, seq<Kind>>, id: string, kind: Kind): map<string, seq<Kind>> {
    beforeTool[id := (if id in beforeTool then beforeTool[id] else []) + [kind]]
  }

  lemma QueuesGrow(beforeTool: map<string, seq<Kind>>, stored: seq<StoredThinking>, block: StoredThinking, toolIds: seq<string>)
    requires AreQueues(beforeTool, stored, toolIds)
    ensures match PlaceOf(block, toolIds)
      case Before(id) => AreQueues(Enqueued(beforeTool, id, block.kind), stored + [block], toolIds)
      case _ => AreQueues(beforeTool, stored + [block], toolIds)
  {
    forall id {
      AtSnoc(stored, block, toolIds, Before(id));
    }
  }

  /** One pass over the thinking blocks sorts them into queues. */
  method SortThinking(stored: seq<StoredThinking>, toolIds: seq<string>)
    returns (leading: seq<Kind>, beforeTool: map<string, seq<Kind>>, trailing: seq<Kind>)
    ensures leading == At(stored, toolIds, Leading) && trailing == At(stored, toolIds, Trailing)
    ensures AreQueues(beforeTool, stored, toolIds)
  {
    leading, beforeTool, trailing := [], map[], [];
    for i := 0 to |stored|
      invariant leading == At(stored[..i], toolIds, Leading) && trailing == At(stored[..i], toolIds, Trailing)
      invariant AreQueues(beforeTool, stored[..i], toolIds)
    {
      var block := stored[i];
      assert stored[..i + 1] == stored[..i] + [block];
      AtSnoc(stored[..i], block, toolIds, Leading);
      AtSnoc(stored[..i], block, toolIds, Trailing);
      QueuesGrow(beforeTool, stored[..i], block, toolIds);
      if block.beforeToolCallId != "" && block.beforeToolCallId in toolIds {
        beforeTool := Enqueued(beforeTool, block.beforeToolCallId, block.kind);
      } else if block.beforeToolCallId != "" || block.trailing {
        trailing := trailing + [block.kind];
      } else {
        leading := leading + [block.kind];
      }
    }
    assert stored[..|stored|] == stored;
  }

  method LayoutAssistantTurn(stored: seq<StoredThinking>, texts: seq<Kind>, calls: seq<ToolCall>) returns (content: seq<Kind>)
    ensures content == Layout(stored, texts, calls)
  {
    var toolIds := CallIds(calls);
    var leading, beforeTool, trailing := SortThinking(stored, toolIds);
    var introduced: seq<Kind> := [];
    for i := 0 to |calls|
      invariant introduced == Introduced(stored, toolIds, calls[..i])
    {
      assert Init(calls[..i + 1]) == calls[..i];
      introduced := introduced + (if calls[i].id in beforeTool then beforeTool[calls[i].id] else [])
        + [ToolUse(calls[i].id, calls[i].name, calls[i].args)];
    }
    assert calls[..|calls|] == calls;
    content := leading + texts + (introduced + trailing);
  }

  // ── Splitting and laying out again ────────────────────────────────

  /** The replayable thinking blocks and tool calls of a response, in order. */
  function Interleaving(kinds: seq<Kind>): seq<Kind> {
    if kinds == [] then []
    else Interleaving(Init(kinds)) + (if IsReplayable(Last(kinds)) || Last(kinds).ToolUse? then [Last(kinds)] else [])
  }

  /** Tool call ids are never empty and never repeat within a turn. */
  ghost predicate IdsAreProper(kinds: seq<Kind>) {
    && (forall i :: 0 <= i < |kinds| && kinds[i].ToolUse? ==> kinds[i].id != "")
    && (forall i, j :: 0 <= i < j < |kinds| && kinds[i].ToolUse? && kinds[j].ToolUse? ==> kinds[i].id != kinds[j].id)
  }

  ghost predicate IsPlaced(b: StoredThinking, toolIds: seq<string>) {
    b.beforeToolCallId != "" ==> b.beforeToolCallId in toolIds && !b.trailing
  }

  ghost predicate ArePlaced(stored: seq<StoredThinking>, toolIds: seq<string>) {
    forall i :: 0 <= i < |stored| ==> IsPlaced(stored[i], toolIds)
  }

  /** Every placed block names a call already made, and nothing trails before any content. */
  ghost predicate IsTidy(e: Extracted) {
    && ArePlaced(e.thinkingBlocks, CallIds(e.toolCalls))
    && (!e.sawContent ==> e.toolCalls == [] && forall i :: 0 <= i < |e.thinkingBlocks| ==> !e.thinkingBlocks[i].trailing)
  }

  function Places(e: Extracted, place: Place): seq<Kind> {
    At(e.thinkingBlocks, CallIds(e.toolCalls), place)
  }

  /** Calls, with their thinking, then what trails. */
  function Rest(e: Extracted): seq<Kind> {
    Introduced(e.thinkingBlocks, CallIds(e.toolCalls), e.toolCalls) + Places(e, Trailing)
  }

  lemma AnchoringMovesOne(b: StoredThinking, toolIds: seq<string>, id: string)
    requires id != "" && IsPlaced(b, toolIds)
    ensures IsPlaced(AnchoredOne(b, id), toolIds + [id])
    ensures PlaceOf(AnchoredOne(b, id), toolIds + [id]) == if PlaceOf(b, toolIds) == Trailing then Before(id) else PlaceOf(b, toolIds)
  {
  }

  lemma AnchoringPlaces(stored: seq<StoredThinking>, toolIds: seq<string>, id: string)
    requires id != "" && ArePlaced(stored, toolIds)
    ensures ArePlaced(Anchored(stored, id), toolIds + [id])
  {
    AnchoredAt(stored, id);
    forall i | 0 <= i < |stored|
      ensures IsPlaced(Anchored(stored, id)[i], toolIds + [id])
    {
      AnchoringMovesOne(stored[i], toolIds, id);
    }
  }

  lemma {:induction false} AnchoringMoves(stored: seq<StoredThinking>, toolIds: seq<string>, id: string, place: Place)
    requires id != "" && id !in toolIds && ArePlaced(stored, toolIds)
    ensures At(Anchored(stored, id), toolIds + [id], place) ==
      if place == Before(id) then At(stored, toolIds, Trailing) else if place == Trailing then [] else At(stored, toolIds, place)
  {
    if stored != [] {
      var front, last := Init(stored), stored[|stored| - 1];
      assert forall i :: 0 <= i < |front| ==> front[i] == stored[i];
      AnchoringMoves(front, toolIds, id, place);
      assert IsPlaced(last, toolIds);
      AnchoringMovesOne(last, toolIds, id);
      AtSnoc(Anchored(front, id), AnchoredOne(last, id), toolIds + [id], place);
    }
  }

  lemma {:induction false} AnchoringKeepsIntroduced(stored: seq<StoredThinking>, toolIds: seq<string>, id: string, calls: seq<ToolCall>)
    requires id != "" && id !in toolIds && forall i :: 0 <= i < |calls| ==> calls[i].id in toolIds
    requires ArePlaced(stored, toolIds)
    ensures Introduced(Anchored(stored, id), toolIds + [id], calls) == Introduced(stored, toolIds, calls)
  {
    if calls != [] {
      var front := Init(calls);
      assert forall i :: 0 <= i < |front| ==> front[i] == calls[i];
      AnchoringKeepsIntroduced(stored, toolIds, id, front);
      assert Last(calls) == calls[|calls| - 1];
      AnchoringMoves(stored, toolIds, id, Before(Last(calls).id));
    }
  }

  lemma {:induction false} CallIdsAt(calls: seq<ToolCall>)
    ensures |CallIds(calls)| == |calls| && forall i :: 0 <= i < |calls| ==> CallIds(calls)[i] == calls[i].id
  {
    if calls != [] {
      CallIdsAt(Init(calls));
    }
  }

  lemma CallTakesTrailingAlong(stored: seq<StoredThinking>, calls: seq<ToolCall>, call: ToolCall)
    requires call.id != "" && call.id !in CallIds(calls) && ArePlaced(stored, CallIds(calls))
    ensures var ids, after := CallIds(calls), Anchored(stored, call.id);
      var nextIds := ids + [call.id];
      && ArePlaced(after, nextIds)
      && At(after, nextIds, Leading) == At(stored, ids, Leading)
      && At(after, nextIds, Trailing) == []
      && At(after, nextIds, Before(call.id)) == At(stored, ids, Trailing)
      && Introduced(after, nextIds, calls) == Introduced(stored, ids, calls)
  {
    var ids := CallIds(calls);
    CallIdsAt(calls);
    assert forall i :: 0 <= i < |calls| ==> ids[i] == calls[i].id;
    AnchoringPlaces(stored, ids, call.id);
    AnchoringMoves(stored, ids, call.id, Leading);
    AnchoringMoves(stored, ids, call.id, Before(call.id));
    AnchoringMoves(stored, ids, call.id, Trailing);
    AnchoringKeepsIntroduced(stored, ids, call.id, calls);
  }

  lemma CallsSnoc(stored: seq<StoredThinking>, toolIds: seq<string>, calls: seq<ToolCall>, call: ToolCall)
    ensures CallIds(calls + [call]) == CallIds(calls) + [call.id]
    ensures Introduced(stored, toolIds, calls + [call]) ==
      Introduced(stored, toolIds, calls) + At(stored, toolIds, Before(call.id)) + [ToolUse(call.id, call.name, call.args)]
  {
    assert Init(calls + [call]) == calls;
  }

  /** A tool call takes the trailing thinking along; everything else stays where it was. */
  lemma CallTakesTrailing(e: Extracted, call: Kind)
    requires call.ToolUse? && call.id != "" && call.id !in CallIds(e.toolCalls) && IsTidy(e)
    ensures var after := Take(e, call, false);
      && IsTidy(after) && CallIds(after.toolCalls) == CallIds(e.toolCalls) + [call.id]
      && Places(after, Leading) == Places(e, Leading) && Rest(after) == Rest(e) + [call]
  {
    var after := Take(e, call, false);
    var made := ToolCall(call.id, call.name, call.input);
    CallTakesTrailingAlong(e.thinkingBlocks, e.toolCalls, made);
    CallsSnoc(after.thinkingBlocks, CallIds(e.toolCalls) + [call.id], e.toolCalls, made);
  }

  lemma ThinkingGoesLast(e: Extracted, block: Kind)
    requires IsReplayable(block) && IsTidy(e)
    ensures var after := Take(e, block, false);
      && IsTidy(after)
      && Places(after, Leading) == Places(e, Leading) + (if e.sawContent then [] else [block])
      && Rest(after) == Rest(e) + (if e.sawContent then [block] else [])
  {
    var after := Take(e, block, false);
    assert Init(after.thinkingBlocks) == e.thinkingBlocks;
    UnplacedIsNotIntroduced(e.thinkingBlocks, Last(after.thinkingBlocks), CallIds(e.toolCalls), e.toolCalls);
  }

  lemma {:induction false} UnplacedIsNotIntroduced(stored: seq<StoredThinking>, last: StoredThinking, toolIds: seq<string>, calls: seq<ToolCall>)
    requires last.beforeToolCallId == ""
    ensures Introduced(stored + [last], toolIds, calls) == Introduced(stored, toolIds, calls)
  {
    if calls != [] {
      UnplacedIsNotIntroduced(stored, last, toolIds, Init(calls));
      assert Init(stored + [last]) == stored;
    }
  }

  lemma {:induction false} NothingTrails(stored: seq<StoredThinking>)
    requires forall i :: 0 <= i < |stored| ==> stored[i].beforeToolCallId == "" && !stored[i].trailing
    ensures At(stored, [], Trailing) == []
  {
    if stored != [] {
      NothingTrails(Init(stored));
    }
  }

  lemma RestIsEmptyAtFirst(e: Extracted)
    requires IsTidy(e) && !e.sawContent
    ensures Rest(e) == []
  {
    assert forall i :: 0 <= i < |e.thinkingBlocks| ==> IsPlaced(e.thinkingBlocks[i], CallIds(e.toolCalls));
    NothingTrails(e.thinkingBlocks);
  }

  function IdsIn(kinds: seq<Kind>): seq<string> {
    if kinds == [] then [] else IdsIn(Init(kinds)) + (if Last(kinds).ToolUse? then [Last(kinds).id] else [])
  }

  lemma {:induction false} IdsInAreThere(kinds: seq<Kind>, id: string)
    requires id in IdsIn(kinds)
    ensures exists i :: 0 <= i < |kinds| && kinds[i].ToolUse? && kinds[i].id == id
  {
    if kinds[|kinds| - 1].ToolUse? && kinds[|kinds| - 1].id == id {
    } else {
      IdsInAreThere(Init(kinds), id);
      var i :| 0 <= i < |Init(kinds)| && Init(kinds)[i].ToolUse? && Init(kinds)[i].id == id;
      assert kinds[i].ToolUse? && kinds[i].id == id;
    }
  }

  /** The order so far: what leads, then the calls with their thinking, then what trails. */
  ghost predicate IsInOrder(e: Extracted, kinds: seq<Kind>) {
    IsTidy(e) && CallIds(e.toolCalls) == IdsIn(kinds) && Places(e, Leading) + Rest(e) == Interleaving(kinds)
  }

  lemma TakingCallKeepsOrder(e: Extracted, kinds: seq<Kind>, call: Kind)
    requires IsInOrder(e, kinds) && call.ToolUse? && call.id != "" && call.id !in IdsIn(kinds)
    ensures IsInOrder(Take(e, call, false), kinds + [call])
  {
    CallTakesTrailing(e, call);
    KindsSnoc(kinds, call);
    assert Places(e, Leading) + (Rest(e) + [call]) == (Places(e, Leading) + Rest(e)) + [call];
  }

  lemma TakingThinkingKeepsOrder(e: Extracted, kinds: seq<Kind>, block: Kind)
    requires IsInOrder(e, kinds) && IsReplayable(block)
    ensures IsInOrder(Take(e, block, false), kinds + [block])
  {
    ThinkingGoesLast(e, block);
    KindsSnoc(kinds, block);
    if e.sawContent {
      Regroup(Places(e, Leading), Rest(e), [block]);
    } else {
      RestIsEmptyAtFirst(e);
      NothingBehind(Places(e, Leading), [block]);
    }
  }

  lemma NothingBehind<T>(a: seq<T>, b: seq<T>)
    ensures (a + b) + [] == (a + []) + b
  {
  }

  lemma KindsSnoc(kinds: seq<Kind>, next: Kind)
    ensures IdsIn(kinds + [next]) == IdsIn(kinds) + (if next.ToolUse? then [next.id] else [])
    ensures Interleaving(kinds + [next]) == Interleaving(kinds) + (if IsReplayable(next) || next.ToolUse? then [next] else [])
  {
    assert Init(kinds + [next]) == kinds;
  }

  lemma TakingKeepsOrder(e: Extracted, kinds: seq<Kind>, next: Kind)
    requires IsInOrder(e, kinds) && !next.Fallback? && (next.ToolUse? ==> next.id != "" && next.id !in IdsIn(kinds))
    ensures IsInOrder(Take(e, next, false), kinds + [next])
  {
    if next.ToolUse? {
      TakingCallKeepsOrder(e, kinds, next);
    } else if IsReplayable(next) {
      TakingThinkingKeepsOrder(e, kinds, next);
    } else {
      KindsSnoc(kinds, next);
    }
  }

  lemma NewIdIsFresh(kinds: seq<Kind>, next: Kind)
    requires IdsAreProper(kinds + [next])
    ensures IdsAreProper(kinds)
    ensures next.ToolUse? ==> next.id != "" && next.id !in IdsIn(kinds)
  {
    var all := kinds + [next];
    assert all[|kinds|] == next && forall i :: 0 <= i < |kinds| ==> all[i] == kinds[i];
    if next.ToolUse? && next.id in IdsIn(kinds) {
      IdsInAreThere(kinds, next.id);
    }
  }

  lemma {:induction false} SplittingKeepsOrder(start: Extracted, kinds: seq<Kind>)
    requires start.thinkingBlocks == [] && start.toolCalls == []
    requires IdsAreProper(kinds) && forall i :: 0 <= i < |kinds| ==> !kinds[i].Fallback?
    ensures IsInOrder(TakeAll(start, kinds, false), kinds)
  {
    if kinds != [] {
      var front, next := Init(kinds), Last(kinds);
      assert kinds == front + [next];
      NewIdIsFresh(front, next);
      SplittingKeepsOrder(start, front);
      TakingKeepsOrder(TakeAll(start, front, false), front, next);
    }
  }

  lemma {:induction false} DeclinedLeavesOnlyText(kinds: seq<Kind>)
    ensures TakeAll(NOTHING, kinds, true).thinkingBlocks == [] && TakeAll(NOTHING, kinds, true).toolCalls == []
  {
    if kinds != [] {
      DeclinedLeavesOnlyText(Init(kinds));
    }
  }

  lemma {:induction false} InterleavingAppends(a: seq<Kind>, b: seq<Kind>)
    ensures Interleaving(a + b) == Interleaving(a) + Interleaving(b)
  {
    if b == [] {
      assert a + b == a;
    } else {
      InterleavingAppends(a, Init(b));
      assert Init(a + b) == a + Init(b) && Last(a + b) == Last(b);
    }
  }

  lemma {:induction false} InterleavingIsStable(kinds: seq<Kind>)
    ensures Interleaving(Interleaving(kinds)) == Interleaving(kinds)
  {
    if kinds != [] {
      InterleavingIsStable(Init(kinds));
      InterleavingAppends(Interleaving(Init(kinds)), if IsReplayable(Last(kinds)) || Last(kinds).ToolUse? then [Last(kinds)] else []);
      assert Init([Last(kinds)]) == [];
    }
  }

  lemma {:induction false} TextsAreNotInterleaved(texts: seq<Kind>)
    requires forall i :: 0 <= i < |texts| ==> texts[i].Text?
    ensures Interleaving(texts) == []
  {
    if texts != [] {
      assert texts[|texts| - 1].Text?;
      TextsAreNotInterleaved(Init(texts));
    }
  }

  /**
   * Whatever the response, after the last fallback every replayable thinking
   * block and tool call comes back exactly once, verbatim, in the same order.
   */
  lemma LayoutKeepsInterleaving(kinds: seq<Kind>, texts: seq<Kind>)
    requires IdsAreProper(Answered(kinds)) && forall i :: 0 <= i < |texts| ==> texts[i].Text?
    ensures Interleaving(Layout(Extract(kinds).thinkingBlocks, texts, Extract(kinds).toolCalls)) == Interleaving(Answered(kinds))
  {
    var e := Extract(kinds);
    DeclinedLeavesOnlyText(Declined(kinds));
    SplittingKeepsOrder(TakeAll(NOTHING, Declined(kinds), true), Answered(kinds));
    assert Layout(e.thinkingBlocks, texts, e.toolCalls) == Places(e, Leading) + texts + Rest(e);
    TextsVanish(Places(e, Leading), texts, Rest(e));
    InterleavingIsStable(Answered(kinds));
  }

  lemma TextsVanish(leading: seq<Kind>, texts: seq<Kind>, rest: seq<Kind>)
    requires forall i :: 0 <= i < |texts| ==> texts[i].Text?
    ensures Interleaving(leading + texts + rest) == Interleaving(leading + rest)
  {
    InterleavingAppends(leading + texts, rest);
    InterleavingAppends(leading, texts);
    TextsAreNotInterleaved(texts);
    InterleavingAppends(leading, rest);
  }

  /** Thinking, at most one text with something in it, then thinking and tool calls in any order. */
  ghost predicate IsCanonical(lead: seq<Kind>, texts: seq<Kind>, rest: seq<Kind>) {
    && (forall i :: 0 <= i < |lead| ==> IsReplayable(lead[i]))
    && |texts| <= 1 && (forall i :: 0 <= i < |texts| ==> texts[i].Text? && !IsBlank(texts[i].text))
    && (forall i :: 0 <= i < |rest| ==> IsReplayable(rest[i]) || rest[i].ToolUse?)
    && IdsAreProper(rest)
  }

  lemma {:induction false} InterleavingOfInterleaved(kinds: seq<Kind>)
    requires forall i :: 0 <= i < |kinds| ==> IsReplayable(kinds[i]) || kinds[i].ToolUse?
    ensures Interleaving(kinds) == kinds
  {
    if kinds != [] {
      var last := kinds[|kinds| - 1];
      assert kinds == Init(kinds) + [last];
      InterleavingOfInterleaved(Init(kinds));
    }
  }

  lemma {:induction false} NoFallbackAnywhere(kinds: seq<Kind>)
    requires forall i :: 0 <= i < |kinds| ==> !kinds[i].Fallback?
    ensures LastFallback(kinds) == -1
  {
    if kinds != [] {
      NoFallbackAnywhere(Init(kinds));
      assert !kinds[|kinds| - 1].Fallback?;
    }
  }

  /** Nothing but the thinking `lead` was taken, and it goes in front. */
  ghost predicate OnlyLeads(e: Extracted, lead: seq<Kind>) {
    IsTidy(e) && !e.sawContent && e.text == "" && e.toolCalls == [] && Places(e, Leading) == lead
  }

  lemma LeadsFurther(e: Extracted, lead: seq<Kind>, next: Kind)
    requires OnlyLeads(e, lead) && IsReplayable(next)
    ensures OnlyLeads(Take(e, next, false), lead + [next])
  {
    ThinkingGoesLast(e, next);
  }

  lemma {:induction false} LeadingOnly(lead: seq<Kind>)
    requires forall i :: 0 <= i < |lead| ==> IsReplayable(lead[i])
    ensures OnlyLeads(TakeAll(NOTHING, lead, false), lead)
  {
    if lead != [] {
      var last := lead[|lead| - 1];
      LeadingOnly(Init(lead));
      LeadsFurther(TakeAll(NOTHING, Init(lead), false), Init(lead), last);
      assert lead == Init(lead) + [last];
    }
  }

  /** `after` is `e` with `kinds` put behind everything. */
  ghost predicate Continues(e: Extracted, after: Extracted, kinds: seq<Kind>) {
    && IsTidy(after) && after.sawContent && after.text == e.text && Places(after, Leading) == Places(e, Leading)
    && CallIds(after.toolCalls) == IdsIn(kinds) && Rest(after) == Rest(e) + kinds
  }

  lemma ContinuesFurther(e: Extracted, before: Extracted, kinds: seq<Kind>, next: Kind)
    requires Continues(e, before, kinds)
    requires IsReplayable(next) || (next.ToolUse? && next.id != "" && next.id !in IdsIn(kinds))
    ensures Continues(e, Take(before, next, false), kinds + [next])
  {
    KindsSnoc(kinds, next);
    assert Rest(e) + (kinds + [next]) == (Rest(e) + kinds) + [next];
    if next.ToolUse? {
      CallTakesTrailing(before, next);
    } else {
      ThinkingGoesLast(before, next);
    }
  }

  /** Once there is content, nothing more leads and no text is added by thinking or calls. */
  lemma {:induction false} NothingMoreLeads(e: Extracted, kinds: seq<Kind>)
    requires IsTidy(e) && e.sawContent && CallIds(e.toolCalls) == []
    requires IdsAreProper(kinds) && forall i :: 0 <= i < |kinds| ==> IsReplayable(kinds[i]) || kinds[i].ToolUse?
    ensures Continues(e, TakeAll(e, kinds, false), kinds)
  {
    if kinds == [] {
      assert Rest(e) + kinds == Rest(e);
    } else {
      var front, next := Init(kinds), Last(kinds);
      assert kinds == front + [next];
      NewIdIsFresh(front, next);
      NothingMoreLeads(e, front);
      ContinuesFurther(e, TakeAll(e, front, false), front, next);
    }
  }

  lemma CanonicalWithText(lead: seq<Kind>, text: Kind, rest: seq<Kind>)
    requires IsCanonical(lead, [text], rest)
    ensures var e := TakeAll(NOTHING, lead + [text] + rest, false);
      && Places(e, Leading) == lead && Rest(e) == rest && e.text == [text][0].text
  {
    assert [text][0].Text?;
    var atLead := TakeAll(NOTHING, lead, false);
    var atText := Take(atLead, text, false);
    LeadingOnly(lead);
    RestIsEmptyAtFirst(atLead);
    assert Rest(atText) == Rest(atLead) && Places(atText, Leading) == Places(atLead, Leading);
    NothingMoreLeads(atText, rest);
    assert [] + rest == rest;
    TakeAllAppends(NOTHING, lead + [text], rest, false);
    assert Init(lead + [text]) == lead;
  }

  lemma CanonicalWithoutText(lead: seq<Kind>, rest: seq<Kind>)
    requires IsCanonical(lead, [], rest)
    ensures var e := TakeAll(NOTHING, lead + rest, false);
      && Places(e, Leading) + Rest(e) == lead + rest && e.text == ""
  {
    SplittingKeepsOrder(NOTHING, lead + rest);
    InterleavingOfInterleaved(lead + rest);
    NoTextFromThinkingAndCalls(lead + rest);
  }

  lemma CanonicalHasNoFallback(lead: seq<Kind>, texts: seq<Kind>, rest: seq<Kind>)
    requires IsCanonical(lead, texts, rest)
    ensures Extract(lead + texts + rest) == TakeAll(NOTHING, lead + texts + rest, false)
  {
    var kinds := lead + texts + rest;
    forall i | 0 <= i < |kinds|
      ensures !kinds[i].Fallback?
    {
      assert kinds[i] in lead || kinds[i] in texts || kinds[i] in rest;
    }
    NoFallbackAnywhere(kinds);
    assert Answered(kinds) == kinds;
  }

  /** A turn of the canonical shape comes back as it was, block for block. */
  lemma CanonicalTurnComesBack(lead: seq<Kind>, texts: seq<Kind>, rest: seq<Kind>)
    requires IsCanonical(lead, texts, rest)
    ensures var e := Extract(lead + texts + rest);
      && Layout(e.thinkingBlocks, texts, e.toolCalls) == lead + texts + rest
      && e.text == if texts == [] then "" else texts[0].text
  {
    CanonicalHasNoFallback(lead, texts, rest);
    var e := Extract(lead + texts + rest);
    assert Layout(e.thinkingBlocks, texts, e.toolCalls) == Places(e, Leading) + texts + Rest(e);
    if texts == [] {
      CanonicalWithoutText(lead, rest);
      assert lead + texts == lead && Places(e, Leading) + texts == Places(e, Leading);
    } else {
      assert texts == [texts[0]];
      CanonicalWithText(lead, texts[0], rest);
    }
  }

  lemma {:induction false} NoTextFromThinkingAndCalls(kinds: seq<Kind>)
    requires forall i :: 0 <= i < |kinds| ==> IsReplayable(kinds[i]) || kinds[i].ToolUse?
    ensures TakeAll(NOTHING, kinds, false).text == ""
  {
    if kinds != [] {
      assert IsReplayable(kinds[|kinds| - 1]) || kinds[|kinds| - 1].ToolUse?;
      NoTextFromThinkingAndCalls(Init(kinds));
    }
  }

  // ── The text of a response ────────────────────────────────────────

  function TextPart(kind: Kind): string {
    if kind.Text? then kind.text else ""
  }

  lemma {:induction false} TakingGathersText(start: Extracted, kinds: seq<Kind>, beforeFallback: bool)
    ensures TakeAll(start, kinds, beforeFallback).text == start.text + FlatMap(TextPart, kinds)
  {
    if kinds == [] {
      NothingMore(start.text);
    } else {
      TakingGathersText(start, Init(kinds), beforeFallback);
      Regroup(start.text, FlatMap(TextPart, Init(kinds)), TextPart(Last(kinds)));
      NothingMore(TakeAll(start, Init(kinds), beforeFallback).text);
    }
  }

  lemma NothingInFront<T>(s: seq<T>)
    ensures [] + s == s
  {
  }

  lemma TextAroundFallback(declined: seq<Kind>, fallback: Kind, answered: seq<Kind>)
    requires fallback.Fallback?
    ensures FlatMap(TextPart, declined + [fallback] + answered) == FlatMap(TextPart, declined) + FlatMap(TextPart, answered)
  {
    FlatMapAppends(TextPart, declined + [fallback], answered);
    FlatMapAppends(TextPart, declined, [fallback]);
    FlatMapOne(TextPart, fallback);
    NothingMore(FlatMap(TextPart, declined));
  }

  lemma CutAtFallback(kinds: seq<Kind>, at: nat)
    requires at < |kinds|
    ensures kinds == kinds[..at] + [kinds[at]] + kinds[at + 1..]
  {
  }

  lemma TextOfParts(kinds: seq<Kind>)
    ensures FlatMap(TextPart, kinds) == FlatMap(TextPart, Declined(kinds)) + FlatMap(TextPart, Answered(kinds))
  {
    var at := LastFallback(kinds);
    if at >= 0 {
      CutAtFallback(kinds, at);
      TextAroundFallback(kinds[..at], kinds[at], kinds[at + 1..]);
    } else {
      SplitAt(kinds, 0);
      NothingInFront(Answered(kinds));
      NothingInFront(FlatMap(TextPart, kinds));
    }
  }

  /** The text stored is all text of the response, in order, that of a declining model included. */
  lemma TextIsComplete(kinds: seq<Kind>)
    ensures Extract(kinds).text == FlatMap(TextPart, kinds)
  {
    TakingGathersText(NOTHING, Declined(kinds), true);
    NothingInFront(FlatMap(TextPart, Declined(kinds)));
    TakingGathersText(TakeAll(NOTHING, Declined(kinds), true), Answered(kinds), false);
    TextOfParts(kinds);
  }
}
