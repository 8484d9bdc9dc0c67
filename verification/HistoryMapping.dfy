/** What the messages mapped from a history hold of it, message by message and over the whole. */
module HistoryMapping {
  import opened Prelude
  import opened AnthropicBlocks
  import opened MessageMerge
  import opened PrepareMessages
  import opened PreparedContent
  import opened ThinkingLayout
  import CacheBreakpoints
  import ToolReferences

  /** Thinking is stored as thinking, and attachments become neither thinking, calls nor results. */
  ghost predicate IsStored(m: ChatMessage) {
    && (forall i :: 0 <= i < |m.thinkingBlocks| ==> IsThinking(m.thinkingBlocks[i].kind))
    && (forall i :: 0 <= i < |m.media| ==> m.media[i].Text? || m.media[i].Opaque?)
  }

  // ── The layout loses and repeats nothing ──────────────────────────

  function KindsOf(stored: seq<StoredThinking>): seq<Kind> {
    if stored == [] then [] else KindsOf(Init(stored)) + [Last(stored).kind]
  }

  /** The stored block, if it goes in front of one of the calls. */
  function IntroducesOne(last: StoredThinking, toolIds: seq<string>, ids: seq<string>): multiset<Kind> {
    if PlaceOf(last, toolIds).Before? && PlaceOf(last, toolIds).id in ids then multiset{last.kind} else multiset{}
  }

  lemma CountedByCall(stored: seq<StoredThinking>, toolIds: seq<string>, calls: seq<ToolCall>)
    requires calls != []
    ensures multiset(Introduced(stored, toolIds, calls))
         == multiset(Introduced(stored, toolIds, Init(calls))) + multiset(At(stored, toolIds, Before(Last(calls).id)))
          + multiset{ToolUse(Last(calls).id, Last(calls).name, Last(calls).args)}
  {
    var call := Last(calls);
    CountedOneByOne(Introduced(stored, toolIds, Init(calls)), At(stored, toolIds, Before(call.id)), ToolUse(call.id, call.name, call.args));
  }

  lemma IntroducesInFront(last: StoredThinking, toolIds: seq<string>, calls: seq<ToolCall>)
    requires calls != [] && Distinct(CallIds(calls))
    ensures IntroducesOne(last, toolIds, CallIds(calls))
         == IntroducesOne(last, toolIds, CallIds(Init(calls)))
          + (if PlaceOf(last, toolIds) == Before(Last(calls).id) then multiset{last.kind} else multiset{})
  {
    CallIdsSplit(calls);
  }

  lemma AtCounted(stored: seq<StoredThinking>, last: StoredThinking, toolIds: seq<string>, place: Place)
    ensures multiset(At(stored + [last], toolIds, place))
         == multiset(At(stored, toolIds, place)) + (if PlaceOf(last, toolIds) == place then multiset{last.kind} else multiset{})
  {
    AtSnoc(stored, last, toolIds, place);
  }

  lemma BothGrow<T>(a: multiset<T>, x: multiset<T>, b: multiset<T>, y: multiset<T>, c: multiset<T>)
    ensures (a + x) + (b + y) + c == (a + b + c) + (x + y)
  {
  }

  lemma {:induction false} IntroducedGrows(stored: seq<StoredThinking>, last: StoredThinking, toolIds: seq<string>, calls: seq<ToolCall>)
    requires Distinct(CallIds(calls))
    ensures multiset(Introduced(stored + [last], toolIds, calls))
         == multiset(Introduced(stored, toolIds, calls)) + IntroducesOne(last, toolIds, CallIds(calls))
  {
    if calls != [] {
      CallIdsSplit(calls);
      IntroducedGrows(stored, last, toolIds, Init(calls));
      IntroducesInFront(last, toolIds, calls);
      CountedByCall(stored, toolIds, calls);
      CountedByCall(stored + [last], toolIds, calls);
      AtCounted(stored, last, toolIds, Before(Last(calls).id));
      BothGrow(
        multiset(Introduced(stored, toolIds, Init(calls))), IntroducesOne(last, toolIds, CallIds(Init(calls))),
        multiset(At(stored, toolIds, Before(Last(calls).id))),
        if PlaceOf(last, toolIds) == Before(Last(calls).id) then multiset{last.kind} else multiset{},
        multiset{ToolUse(Last(calls).id, Last(calls).name, Last(calls).args)});
    }
  }

  lemma CountedOneByOne<T>(a: seq<T>, b: seq<T>, x: T)
    ensures multiset(a + b + [x]) == multiset(a) + multiset(b) + multiset{x}
  {
  }

  lemma CallIdsSplit(calls: seq<ToolCall>)
    requires calls != [] && Distinct(CallIds(calls))
    ensures Distinct(CallIds(Init(calls))) && Last(calls).id !in CallIds(Init(calls))
    ensures forall id :: id in CallIds(calls) <==> id in CallIds(Init(calls)) || id == Last(calls).id
  {
    var front := CallIds(Init(calls));
    assert CallIds(calls) == front + [Last(calls).id];
    assert forall i :: 0 <= i < |front| ==> CallIds(calls)[i] == front[i];
    assert CallIds(calls)[|front|] == Last(calls).id;
  }

  lemma {:induction false} NothingIntroduced(toolIds: seq<string>, calls: seq<ToolCall>)
    ensures Introduced([], toolIds, calls) == ToolUses(calls)
  {
    if calls != [] {
      NothingIntroduced(toolIds, Init(calls));
    }
  }

  /** One more stored block is laid out once, wherever it goes. */
  lemma PlacedOnce(stored: seq<StoredThinking>, last: StoredThinking, calls: seq<ToolCall>)
    requires Distinct(CallIds(calls))
    ensures multiset(At(stored + [last], CallIds(calls), Leading)) + multiset(Introduced(stored + [last], CallIds(calls), calls))
          + multiset(At(stored + [last], CallIds(calls), Trailing))
         == multiset(At(stored, CallIds(calls), Leading)) + multiset(Introduced(stored, CallIds(calls), calls))
          + multiset(At(stored, CallIds(calls), Trailing)) + multiset{last.kind}
  {
    AtSnoc(stored, last, CallIds(calls), Leading);
    AtSnoc(stored, last, CallIds(calls), Trailing);
    IntroducedGrows(stored, last, CallIds(calls), calls);
  }

  lemma {:induction false} AllPlacedOnce(stored: seq<StoredThinking>, calls: seq<ToolCall>)
    requires Distinct(CallIds(calls))
    ensures multiset(At(stored, CallIds(calls), Leading)) + multiset(Introduced(stored, CallIds(calls), calls))
          + multiset(At(stored, CallIds(calls), Trailing))
         == multiset(KindsOf(stored)) + multiset(ToolUses(calls))
  {
    if stored == [] {
      NothingIntroduced(CallIds(calls), calls);
    } else {
      AllPlacedOnce(Init(stored), calls);
      PlacedOnce(Init(stored), Last(stored), calls);
      InitAndLast(stored);
    }
  }

  /** Laid out are all stored thinking, the texts and the calls, each exactly once, wherever the anchors point. */
  lemma LayoutIsAPermutation(stored: seq<StoredThinking>, texts: seq<Kind>, calls: seq<ToolCall>)
    requires Distinct(CallIds(calls))
    ensures multiset(Layout(stored, texts, calls)) == multiset(KindsOf(stored)) + multiset(texts) + multiset(ToolUses(calls))
  {
    AllPlacedOnce(stored, calls);
    var ids := CallIds(calls);
    JoinedMultisets(At(stored, ids, Leading), texts, Introduced(stored, ids, calls), At(stored, ids, Trailing));
  }

  lemma JoinedMultisets<T>(a: seq<T>, b: seq<T>, c: seq<T>, d: seq<T>)
    ensures multiset(a + b + (c + d)) == multiset(a) + multiset(c) + multiset(d) + multiset(b)
  {
  }

  // ── Calls and results of one message ──────────────────────────────

  function CallKind(kind: Kind): seq<Kind> {
    if kind.ToolUse? then [kind] else []
  }

  function ResultKind(kind: Kind): seq<Kind> {
    if kind.ToolResult? then [kind] else []
  }

  function ResultOf(b: Block): seq<Kind> {
    ResultKind(b.kind)
  }

  /** The results a user turn holds. */
  function ResultsBy(m: Message): seq<Kind> {
    if m.role.User? then FlatMap(ResultOf, BlocksOf(m.content)) else []
  }

  lemma {:induction false} NoneGathered<A, T>(g: A -> seq<T>, s: seq<A>)
    requires forall i :: 0 <= i < |s| ==> g(s[i]) == []
    ensures FlatMap(g, s) == []
  {
    if s != [] {
      assert forall i :: 0 <= i < |s| - 1 ==> Init(s)[i] == s[i];
      NoneGathered(g, Init(s));
    }
  }

  lemma {:induction false} AtIsStored(stored: seq<StoredThinking>, toolIds: seq<string>, place: Place)
    requires forall i :: 0 <= i < |stored| ==> IsThinking(stored[i].kind)
    ensures forall i :: 0 <= i < |At(stored, toolIds, place)| ==> IsThinking(At(stored, toolIds, place)[i])
  {
    if stored != [] {
      AtIsStored(Init(stored), toolIds, place);
    }
  }

  lemma ThinkingIsNoCall(stored: seq<StoredThinking>, toolIds: seq<string>, place: Place)
    requires forall i :: 0 <= i < |stored| ==> IsThinking(stored[i].kind)
    ensures FlatMap(CallKind, At(stored, toolIds, place)) == []
  {
    AtIsStored(stored, toolIds, place);
    NoneGathered(CallKind, At(stored, toolIds, place));
  }

  lemma {:induction false} CallsOfIntroduced(stored: seq<StoredThinking>, toolIds: seq<string>, calls: seq<ToolCall>)
    requires forall i :: 0 <= i < |stored| ==> IsThinking(stored[i].kind)
    ensures FlatMap(CallKind, Introduced(stored, toolIds, calls)) == ToolUses(calls)
  {
    if calls != [] {
      var call := Last(calls);
      var use := ToolUse(call.id, call.name, call.args);
      var queue := At(stored, toolIds, Before(call.id));
      CallsOfIntroduced(stored, toolIds, Init(calls));
      ThinkingIsNoCall(stored, toolIds, Before(call.id));
      FlatMapAppends(CallKind, Introduced(stored, toolIds, Init(calls)) + queue, [use]);
      FlatMapAppends(CallKind, Introduced(stored, toolIds, Init(calls)), queue);
      FlatMapOne(CallKind, use);
    }
  }

  /** The calls of a laid-out turn are its calls, in order. */
  lemma CallsOfLayout(stored: seq<StoredThinking>, texts: seq<Kind>, calls: seq<ToolCall>)
    requires forall i :: 0 <= i < |stored| ==> IsThinking(stored[i].kind)
    requires forall i :: 0 <= i < |texts| ==> texts[i].Text?
    ensures FlatMap(CallKind, Layout(stored, texts, calls)) == ToolUses(calls)
  {
    var ids := CallIds(calls);
    var leading, rest, trailing := At(stored, ids, Leading), Introduced(stored, ids, calls), At(stored, ids, Trailing);
    FlatMapAppends(CallKind, leading + texts, rest + trailing);
    FlatMapAppends(CallKind, leading, texts);
    FlatMapAppends(CallKind, rest, trailing);
    ThinkingIsNoCall(stored, ids, Leading);
    ThinkingIsNoCall(stored, ids, Trailing);
    NoneGathered(CallKind, texts);
    CallsOfIntroduced(stored, ids, calls);
  }

  lemma {:induction false} BlocksGatherLikeKinds<T>(f: Block -> seq<T>, g: Kind -> seq<T>, blocks: seq<Block>, kinds: seq<Kind>)
    requires |blocks| == |kinds| && forall i :: 0 <= i < |kinds| ==> f(blocks[i]) == g(kinds[i])
    ensures FlatMap(f, blocks) == FlatMap(g, kinds)
  {
    if kinds != [] {
      assert forall i :: 0 <= i < |kinds| - 1 ==> Init(blocks)[i] == blocks[i] && Init(kinds)[i] == kinds[i];
      BlocksGatherLikeKinds(f, g, Init(blocks), Init(kinds));
    }
  }

  lemma CallsInBlocks(kinds: seq<Kind>)
    ensures FlatMap(CallOf, AsBlocks(kinds)) == FlatMap(CallKind, kinds)
  {
    BlocksGatherLikeKinds(CallOf, CallKind, AsBlocks(kinds), kinds);
  }

  lemma PlainHoldsNeither(text: string)
    ensures FlatMap(CallOf, [Block(Text(text))]) == [] && FlatMap(ResultOf, [Block(Text(text))]) == []
  {
    FlatMapOne(CallOf, Block(Text(text)));
    FlatMapOne(ResultOf, Block(Text(text)));
  }

  lemma {:induction false} UsesAreUses(calls: seq<ToolCall>)
    ensures FlatMap(CallKind, ToolUses(calls)) == ToolUses(calls)
  {
    if calls != [] {
      var use := ToolUse(Last(calls).id, Last(calls).name, Last(calls).args);
      UsesAreUses(Init(calls));
      FlatMapAppends(CallKind, ToolUses(Init(calls)), [use]);
      FlatMapOne(CallKind, use);
    }
  }

  /** An assistant message is an assistant turn with its calls, in order. */
  lemma AssistantKeepsItsCalls(m: ChatMessage)
    requires IsStored(m)
    ensures CallsBy(CleanAssistant(m)) == ToolUses(m.toolCalls)
  {
    if m.toolCalls != [] {
      CallsOfLayout(m.thinkingBlocks, TextIfAny(m.content), m.toolCalls);
      LegacyTurnKeepsItsCalls(m);
      CallsInBlocks(Layout(m.thinkingBlocks, TextIfAny(m.content), m.toolCalls));
      CallsInBlocks(LegacyThinking(m) + TextIfAny(m.content) + ToolUses(m.toolCalls));
    } else {
      AssistantWithoutCalls(m);
    }
  }

  lemma CallsBehind(before: seq<Kind>, calls: seq<ToolCall>)
    requires forall i :: 0 <= i < |before| ==> !before[i].ToolUse?
    ensures FlatMap(CallKind, before + ToolUses(calls)) == ToolUses(calls)
  {
    FlatMapAppends(CallKind, before, ToolUses(calls));
    NoneGathered(CallKind, before);
    UsesAreUses(calls);
  }

  lemma LegacyTurnKeepsItsCalls(m: ChatMessage)
    ensures FlatMap(CallKind, LegacyThinking(m) + TextIfAny(m.content) + ToolUses(m.toolCalls)) == ToolUses(m.toolCalls)
  {
    CallsBehind(LegacyThinking(m) + TextIfAny(m.content), m.toolCalls);
  }

  lemma NoCallsInBlocks(kinds: seq<Kind>)
    requires forall i :: 0 <= i < |kinds| ==> !kinds[i].ToolUse?
    ensures FlatMap(CallOf, AsBlocks(kinds)) == []
  {
    CallsInBlocks(kinds);
    NoneGathered(CallKind, kinds);
  }

  lemma ThoughtfulWithoutCalls(m: ChatMessage, text: string)
    requires IsStored(m)
    ensures FlatMap(CallOf, AsBlocks(Layout(m.thinkingBlocks, [Text(text)], []))) == []
  {
    CallsOfLayout(m.thinkingBlocks, [Text(text)], []);
    CallsInBlocks(Layout(m.thinkingBlocks, [Text(text)], []));
  }

  lemma AssistantWithoutCalls(m: ChatMessage)
    requires IsStored(m) && m.toolCalls == []
    ensures CallsBy(CleanAssistant(m)) == []
  {
    if m.media != [] {
      NoCallsInBlocks(m.media + (if m.content != "" then [Text(m.content)] else []));
    } else if m.thinkingBlocks != [] {
      ThoughtfulWithoutCalls(m, OrBlank(m.content));
    } else if m.thinking != "" && m.thinkingSignature != "" {
      NoCallsInBlocks(LegacyThinking(m) + [Text(OrBlank(m.content))]);
    } else {
      PlainHoldsNeither(CleanAssistant(m).content.text);
    }
  }

  lemma ResultsInBlocks(kinds: seq<Kind>)
    ensures FlatMap(ResultOf, AsBlocks(kinds)) == FlatMap(ResultKind, kinds)
  {
    BlocksGatherLikeKinds(ResultOf, ResultKind, AsBlocks(kinds), kinds);
  }

  /** The results a stored message brings: a tool's, under the id it answers, with its text. */
  function StoredResults(m: ChatMessage): seq<Kind> {
    if m.role.FromTool? then [ToolResult(m.resultId, PlainResult(m.content))] else []
  }

  function StoredCalls(m: ChatMessage): seq<Kind> {
    if m.role.FromAssistant? then ToolUses(m.toolCalls) else []
  }

  lemma NoResultsInBlocks(kinds: seq<Kind>)
    requires forall i :: 0 <= i < |kinds| ==> !kinds[i].ToolResult?
    ensures FlatMap(ResultOf, AsBlocks(kinds)) == []
  {
    ResultsInBlocks(kinds);
    NoneGathered(ResultKind, kinds);
  }

  lemma ToolKeepsItsResult(m: ChatMessage)
    requires m.role.FromTool?
    ensures FlatMap(ResultOf, AsBlocks(StoredResults(m))) == StoredResults(m)
  {
    ResultsInBlocks(StoredResults(m));
    FlatMapOne(ResultKind, StoredResults(m)[0]);
  }

  lemma SystemBringsNoResult(m: ChatMessage, model: Model, mode: ToolLoadingMode)
    ensures ResultsBy(CleanSystem(m, model, mode)) == []
  {
    var cleaned := CleanSystem(m, model, mode);
    if cleaned.content.PlainContent? {
      PlainHoldsNeither(cleaned.content.text);
    } else if cleaned.role.User? {
      NoResultsInBlocks([Text(m.content), ReferencePlaceholder(m.activation.value.added, m.activation.value.sourceToolCallId)]);
    }
  }

  lemma CleanKeepsResults(m: ChatMessage, model: Model, mode: ToolLoadingMode)
    requires IsStored(m) && !m.role.FromElsewhere?
    ensures ResultsBy(Clean(m, model, mode)) == StoredResults(m)
  {
    match m.role
    case FromTool => ToolKeepsItsResult(m);
    case FromSystem => SystemBringsNoResult(m, model, mode);
    case FromAssistant =>
    case FromUser =>
      PlainHoldsNeither(OrSpace(m.content));
      NoResultsInBlocks(m.media + (if m.content != "" then [Text(m.content)] else []));
  }

  // ── The mapped messages ───────────────────────────────────────────

  function MappedRole(role: ChatRole, model: Model): Role {
    match role
    case FromAssistant => Assistant
    case FromSystem => if model.keepsSystemRole then System else User
    case _ => User
  }

  /** The tag changes no block's content. */
  lemma TaggingKeepsKinds(m: Message)
    ensures var tagged := CacheBreakpoints.TaggedBoundary(m);
      && tagged.role == m.role && tagged.turnScoped == m.turnScoped
      && |BlocksOf(tagged.content)| == |BlocksOf(m.content)|
      && forall i :: 0 <= i < |BlocksOf(m.content)| ==> BlocksOf(tagged.content)[i].kind == BlocksOf(m.content)[i].kind
  {
  }

  lemma TaggingKeepsCallsAndResults(m: Message)
    ensures CallsBy(CacheBreakpoints.TaggedBoundary(m)) == CallsBy(m)
    ensures ResultsBy(CacheBreakpoints.TaggedBoundary(m)) == ResultsBy(m)
  {
    TaggingKeepsKinds(m);
    var before, after := BlocksOf(m.content), BlocksOf(CacheBreakpoints.TaggedBoundary(m).content);
    GatheringAlike(CallOf, after, before);
    GatheringAlike(ResultOf, after, before);
  }

  ghost predicate AllStored(history: seq<ChatMessage>) {
    forall i :: 0 <= i < |history| ==> IsStored(history[i])
  }

  lemma {:induction false} KeptAreStored(history: seq<ChatMessage>)
    requires AllStored(history)
    ensures AllStored(KeptOnly(history))
  {
    if history != [] {
      assert forall i :: 0 <= i < |history| - 1 ==> Init(history)[i] == history[i];
      KeptAreStored(Init(history));
    }
  }

  lemma ConversationIsStored(history: seq<ChatMessage>)
    requires AllStored(history)
    ensures AllStored(Conversation(history))
  {
    KeptAreStored(history);
    if history != [] {
      assert forall i :: 0 <= i < |history| - 1 ==> history[1..][i] == history[i + 1];
      KeptAreStored(history[1..]);
    }
  }

  function ChangeKind(kind: Kind): seq<Kind> {
    if kind.ToolChange? || kind.ReferencePlaceholder? then [kind] else []
  }

  function ChangeOf(b: Block): seq<Kind> {
    ChangeKind(b.kind)
  }

  /** The tool changes and the placeholders for tool references that a message holds. */
  function ChangesBy(m: Message): seq<Kind> {
    FlatMap(ChangeOf, BlocksOf(m.content))
  }

  /** One change for each tool added, then one for each removed. */
  ghost predicate AreChanges(kinds: seq<Kind>, activation: ToolActivation) {
    && |kinds| == |activation.added| + |activation.removed|
    && (forall i :: 0 <= i < |activation.added| ==> kinds[i] == ToolChange(true, activation.added[i]))
    && (forall i :: 0 <= i < |activation.removed| ==> kinds[|activation.added| + i] == ToolChange(false, activation.removed[i]))
  }

  /** The changes a system message announces, as the model takes them. */
  ghost predicate AreAnnounced(kinds: seq<Kind>, m: ChatMessage, model: Model, mode: ToolLoadingMode) {
    if m.role.FromSystem? && m.activation.Some? && model.keepsSystemRole && mode.ToolAddition? then
      AreChanges(kinds, m.activation.value)
    else if m.role.FromSystem? && m.activation.Some? && !model.keepsSystemRole && mode.ToolReference? && m.activation.value.added != [] then
      kinds == [ReferencePlaceholder(m.activation.value.added, m.activation.value.sourceToolCallId)]
    else
      kinds == []
  }

  /** Not empty: at least a block, or a text of at least a space. */
  predicate IsFilled(content: Content) {
    match content
    case PlainContent(text) => text != ""
    case BlockContent(blocks) => blocks != []
  }

  ghost predicate KindsAre(blocks: seq<Block>, kinds: seq<Kind>) {
    |blocks| == |kinds| && forall i :: 0 <= i < |kinds| ==> blocks[i].kind == kinds[i]
  }

  /** With attachments, what the user or the assistant said stands behind them; calls displace an assistant's. */
  ghost predicate HoldsItsParts(m: ChatMessage, mapped: Message) {
    var attaches := m.media != [] && (m.role.FromUser? || (m.role.FromAssistant? && m.toolCalls == []));
    attaches ==> KindsAre(BlocksOf(mapped.content), m.media + (if m.content == "" then [] else [Text(m.content)]))
  }

  function TextKind(kind: Kind): seq<Kind> {
    if kind.Text? then [kind] else []
  }

  function TextOf(b: Block): seq<Kind> {
    TextKind(b.kind)
  }

  /** What a system message says is its content, which may be left out only if that is blank. */
  ghost predicate SaysItsContent(m: ChatMessage, mapped: Message) {
    var texts := FlatMap(TextOf, BlocksOf(mapped.content));
    m.role.FromSystem? ==> texts == [Text(m.content)] || (texts == [] && IsBlank(m.content))
  }

  /** What one message becomes: its role, its calls, its result and its tool changes and attachments, and its scope. */
  ghost predicate IsMapped(m: ChatMessage, mapped: Message, model: Model, mode: ToolLoadingMode) {
    && mapped.role == MappedRole(m.role, model)
    && CallsBy(mapped) == StoredCalls(m) && ResultsBy(mapped) == StoredResults(m)
    && AreAnnounced(ChangesBy(mapped), m, model, mode)
    && mapped.turnScoped == (m.role.FromSystem? && model.keepsSystemRole && m.turnScoped)
    && (!m.role.FromSystem? ==> IsFilled(mapped.content))
    && HoldsItsParts(m, mapped) && SaysItsContent(m, mapped)
  }

  ghost predicate AreOfATurn(kinds: seq<Kind>) {
    forall i :: 0 <= i < |kinds| ==> IsThinking(kinds[i]) || kinds[i].Text? || kinds[i].ToolUse? || kinds[i].Opaque?
  }

  lemma {:induction false} IntroducedAreOfATurn(stored: seq<StoredThinking>, toolIds: seq<string>, calls: seq<ToolCall>)
    requires forall i :: 0 <= i < |stored| ==> IsThinking(stored[i].kind)
    ensures AreOfATurn(Introduced(stored, toolIds, calls))
  {
    if calls != [] {
      IntroducedAreOfATurn(stored, toolIds, Init(calls));
      AtIsStored(stored, toolIds, Before(Last(calls).id));
    }
  }

  lemma LayoutIsOfATurn(stored: seq<StoredThinking>, texts: seq<Kind>, calls: seq<ToolCall>)
    requires forall i :: 0 <= i < |stored| ==> IsThinking(stored[i].kind)
    requires forall i :: 0 <= i < |texts| ==> texts[i].Text?
    ensures AreOfATurn(Layout(stored, texts, calls))
  {
    var ids := CallIds(calls);
    AtIsStored(stored, ids, Leading);
    AtIsStored(stored, ids, Trailing);
    IntroducedAreOfATurn(stored, ids, calls);
  }

  lemma {:induction false} ToolUsesAreCalls(calls: seq<ToolCall>)
    ensures |ToolUses(calls)| == |calls| && forall i :: 0 <= i < |calls| ==> ToolUses(calls)[i].ToolUse?
  {
    if calls != [] {
      ToolUsesAreCalls(Init(calls));
    }
  }

  lemma NoChangesInBlocks(kinds: seq<Kind>)
    requires forall i :: 0 <= i < |kinds| ==> !kinds[i].ToolChange? && !kinds[i].ReferencePlaceholder?
    ensures FlatMap(ChangeOf, AsBlocks(kinds)) == []
  {
    BlocksGatherLikeKinds(ChangeOf, ChangeKind, AsBlocks(kinds), kinds);
    NoneGathered(ChangeKind, kinds);
  }

  lemma NoChangeInText(text: string)
    ensures FlatMap(ChangeOf, [Block(Text(text))]) == []
  {
    FlatMapOne(ChangeOf, Block(Text(text)));
  }

  lemma CallingTurnAnnouncesNothing(m: ChatMessage)
    requires IsStored(m) && m.toolCalls != []
    ensures ChangesBy(CleanAssistant(m)) == [] && IsFilled(CleanAssistant(m).content)
  {
    ToolUsesAreCalls(m.toolCalls);
    if m.thinkingBlocks != [] {
      LayoutIsOfATurn(m.thinkingBlocks, TextIfAny(m.content), m.toolCalls);
      NoChangesInBlocks(Layout(m.thinkingBlocks, TextIfAny(m.content), m.toolCalls));
      CallsAreLaidOut(m.thinkingBlocks, TextIfAny(m.content), m.toolCalls);
    } else {
      NoChangesInBlocks(LegacyThinking(m) + TextIfAny(m.content) + ToolUses(m.toolCalls));
    }
  }

  lemma AttachingTurnAnnouncesNothing(m: ChatMessage)
    requires IsStored(m) && m.toolCalls == [] && m.media != []
    ensures ChangesBy(CleanAssistant(m)) == [] && IsFilled(CleanAssistant(m).content)
  {
    NoChangesInBlocks(m.media + (if m.content != "" then [Text(m.content)] else []));
  }

  lemma SpokenTurnAnnouncesNothing(m: ChatMessage)
    requires IsStored(m) && m.toolCalls == [] && m.media == []
    ensures ChangesBy(CleanAssistant(m)) == [] && IsFilled(CleanAssistant(m).content)
  {
    if CleanAssistant(m).content.PlainContent? {
      NoChangeInText(CleanAssistant(m).content.text);
    } else if m.thinkingBlocks != [] {
      LayoutIsOfATurn(m.thinkingBlocks, [Text(OrBlank(m.content))], []);
      NoChangesInBlocks(Layout(m.thinkingBlocks, [Text(OrBlank(m.content))], []));
    } else {
      NoChangesInBlocks(LegacyThinking(m) + [Text(OrBlank(m.content))]);
    }
  }

  lemma AssistantAnnouncesNothing(m: ChatMessage)
    requires IsStored(m)
    ensures ChangesBy(CleanAssistant(m)) == [] && IsFilled(CleanAssistant(m).content)
  {
    if m.toolCalls != [] {
      CallingTurnAnnouncesNothing(m);
    } else if m.media != [] {
      AttachingTurnAnnouncesNothing(m);
    } else {
      SpokenTurnAnnouncesNothing(m);
    }
  }

  lemma CallsAreLaidOut(stored: seq<StoredThinking>, texts: seq<Kind>, calls: seq<ToolCall>)
    requires calls != []
    ensures Layout(stored, texts, calls) != []
  {
  }

  lemma ChangesAreAnnounced(text: seq<Kind>, changes: seq<Kind>)
    requires forall i :: 0 <= i < |text| ==> text[i].Text?
    requires forall i :: 0 <= i < |changes| ==> changes[i].ToolChange?
    ensures FlatMap(ChangeOf, AsBlocks(text + changes)) == changes
  {
    BlocksGatherLikeKinds(ChangeOf, ChangeKind, AsBlocks(text + changes), text + changes);
    FlatMapAppends(ChangeKind, text, changes);
    NoneGathered(ChangeKind, text);
    AllGathered(changes);
  }

  lemma ToolChangesAreChanges(activation: ToolActivation)
    ensures AreChanges(ToolChanges(activation), activation)
  {
  }

  lemma {:induction false} AllGathered(changes: seq<Kind>)
    requires forall i :: 0 <= i < |changes| ==> changes[i].ToolChange?
    ensures FlatMap(ChangeKind, changes) == changes
  {
    if changes != [] {
      AllGathered(Init(changes));
      assert changes[|changes| - 1].ToolChange?;
      InitAndLast(changes);
    }
  }

  lemma PlaceholderIsAnnounced(text: string, placeholder: Kind)
    requires placeholder.ReferencePlaceholder?
    ensures FlatMap(ChangeOf, AsBlocks([Text(text), placeholder])) == [placeholder]
  {
    var kinds := [Text(text), placeholder];
    BlocksGatherLikeKinds(ChangeOf, ChangeKind, AsBlocks(kinds), kinds);
    assert kinds == [Text(text)] + [placeholder];
    FlatMapAppends(ChangeKind, [Text(text)], [placeholder]);
    FlatMapOne(ChangeKind, Text(text));
    FlatMapOne(ChangeKind, placeholder);
  }

  lemma SystemAnnounces(m: ChatMessage, model: Model, mode: ToolLoadingMode)
    requires m.role.FromSystem?
    ensures AreAnnounced(ChangesBy(CleanSystem(m, model, mode)), m, model, mode)
  {
    var cleaned := CleanSystem(m, model, mode);
    if cleaned.content.PlainContent? {
      NoChangeInText(m.content);
    } else if model.keepsSystemRole {
      ChangesAreAnnounced(TextIfAny(m.content), ToolChanges(m.activation.value));
      ToolChangesAreChanges(m.activation.value);
    } else {
      PlaceholderIsAnnounced(m.content, ReferencePlaceholder(m.activation.value.added, m.activation.value.sourceToolCallId));
    }
  }

  lemma CleanAnnounces(m: ChatMessage, model: Model, mode: ToolLoadingMode)
    requires IsStored(m) && !m.role.FromElsewhere?
    ensures AreAnnounced(ChangesBy(Clean(m, model, mode)), m, model, mode)
    ensures !m.role.FromSystem? ==> IsFilled(Clean(m, model, mode).content)
  {
    match m.role
    case FromTool => NoChangesInBlocks(StoredResults(m));
    case FromSystem => SystemAnnounces(m, model, mode);
    case FromAssistant => AssistantAnnouncesNothing(m);
    case FromUser =>
      NoChangeInText(OrSpace(m.content));
      NoChangesInBlocks(m.media + (if m.content != "" then [Text(m.content)] else []));
  }

  lemma CleanHasItsRole(m: ChatMessage, model: Model, mode: ToolLoadingMode)
    requires !m.role.FromElsewhere?
    ensures var mapped := Clean(m, model, mode);
      && mapped.role == MappedRole(m.role, model)
      && mapped.turnScoped == (m.role.FromSystem? && model.keepsSystemRole && m.turnScoped)
  {
    match m.role
    case FromTool =>
    case FromSystem =>
    case FromAssistant =>
    case FromUser =>
  }

  lemma CleanKeepsCalls(m: ChatMessage, model: Model, mode: ToolLoadingMode)
    requires IsStored(m) && !m.role.FromElsewhere?
    ensures CallsBy(Clean(m, model, mode)) == StoredCalls(m)
  {
    CleanHasItsRole(m, model, mode);
    if m.role.FromAssistant? {
      AssistantKeepsItsCalls(m);
    }
  }

  lemma CleanHoldsItsParts(m: ChatMessage, model: Model, mode: ToolLoadingMode)
    requires !m.role.FromElsewhere?
    ensures HoldsItsParts(m, Clean(m, model, mode))
  {
    match m.role
    case FromTool =>
    case FromSystem =>
    case FromAssistant =>
    case FromUser =>
  }

  lemma TextsInBlocks(kinds: seq<Kind>)
    ensures FlatMap(TextOf, AsBlocks(kinds)) == FlatMap(TextKind, kinds)
  {
    BlocksGatherLikeKinds(TextOf, TextKind, AsBlocks(kinds), kinds);
  }

  lemma TextInFront(text: seq<Kind>, others: seq<Kind>)
    requires (text == [] || (|text| == 1 && text[0].Text?)) && forall i :: 0 <= i < |others| ==> !others[i].Text?
    ensures FlatMap(TextKind, text + others) == text
  {
    FlatMapAppends(TextKind, text, others);
    NoneGathered(TextKind, others);
    if text != [] {
      FlatMapOne(TextKind, text[0]);
    }
  }

  lemma SystemSaysItsContent(m: ChatMessage, model: Model, mode: ToolLoadingMode)
    requires m.role.FromSystem?
    ensures SaysItsContent(m, CleanSystem(m, model, mode))
  {
    var cleaned := CleanSystem(m, model, mode);
    if cleaned.content.PlainContent? {
      FlatMapOne(TextOf, Block(Text(m.content)));
    } else if model.keepsSystemRole {
      TextInFront(TextIfAny(m.content), ToolChanges(m.activation.value));
      TextsInBlocks(TextIfAny(m.content) + ToolChanges(m.activation.value));
    } else {
      var placeholder := ReferencePlaceholder(m.activation.value.added, m.activation.value.sourceToolCallId);
      TextInFront([Text(m.content)], [placeholder]);
      TextsInBlocks([Text(m.content), placeholder]);
      assert [Text(m.content)] + [placeholder] == [Text(m.content), placeholder];
    }
  }

  lemma CleanSaysItsContent(m: ChatMessage, model: Model, mode: ToolLoadingMode)
    requires !m.role.FromElsewhere?
    ensures SaysItsContent(m, Clean(m, model, mode))
  {
    if m.role.FromSystem? {
      SystemSaysItsContent(m, model, mode);
    }
  }

  lemma CleanIsMapped(m: ChatMessage, model: Model, mode: ToolLoadingMode)
    requires IsStored(m) && !m.role.FromElsewhere?
    ensures IsMapped(m, Clean(m, model, mode), model, mode)
  {
    CleanHasItsRole(m, model, mode);
    CleanKeepsCalls(m, model, mode);
    CleanKeepsResults(m, model, mode);
    CleanAnnounces(m, model, mode);
    CleanHoldsItsParts(m, model, mode);
    CleanSaysItsContent(m, model, mode);
  }

  lemma TaggedIsMapped(m: ChatMessage, mapped: Message, model: Model, mode: ToolLoadingMode)
    requires IsMapped(m, mapped, model, mode)
    ensures IsMapped(m, CacheBreakpoints.TaggedBoundary(mapped), model, mode)
  {
    TaggingKeepsKinds(mapped);
    TaggingKeepsCallsAndResults(mapped);
    GatheringAlike(ChangeOf, BlocksOf(CacheBreakpoints.TaggedBoundary(mapped).content), BlocksOf(mapped.content));
    GatheringAlike(TextOf, BlocksOf(CacheBreakpoints.TaggedBoundary(mapped).content), BlocksOf(mapped.content));
  }

  lemma CleanedIs(history: seq<ChatMessage>, model: Model, mode: ToolLoadingMode, i: nat)
    requires i < |Conversation(history)|
    ensures |Cleaned(history, model, mode)| == |Conversation(history)|
    ensures var clean := Clean(Conversation(history)[i], model, mode);
      Cleaned(history, model, mode)[i] == clean || Cleaned(history, model, mode)[i] == CacheBreakpoints.TaggedBoundary(clean)
  {
  }

  /**
   * Each message but a leading system prompt and those of unknown roles becomes
   * one message of its role, with exactly its calls, its result and its tool
   * changes, turn-scoped only as a system message that is.
   */
  lemma EachMessageIsMapped(history: seq<ChatMessage>, model: Model, mode: ToolLoadingMode, i: nat)
    requires AllStored(history) && i < |Conversation(history)|
    ensures |Cleaned(history, model, mode)| == |Conversation(history)|
    ensures IsMapped(Conversation(history)[i], Cleaned(history, model, mode)[i], model, mode)
  {
    var m := Conversation(history)[i];
    ConversationIsStored(history);
    CleanedIs(history, model, mode, i);
    CleanIsMapped(m, model, mode);
    TaggedIsMapped(m, Clean(m, model, mode), model, mode);
  }

  // ── Which messages are mapped ─────────────────────────────────────

  /** All but those of unknown roles, and a system message the history starts with: that is the system prompt. */
  predicate IsMessage(history: seq<ChatMessage>, i: nat)
    requires i < |history|
  {
    !history[i].role.FromElsewhere? && !(i == 0 && history[0].role.FromSystem?)
  }

  ghost predicate AreAscending(at: seq<nat>) {
    forall j, k :: 0 <= j < k < |at| ==> at[j] < at[k]
  }

  /** The positions of all its messages, in order. */
  ghost predicate AreMessages(history: seq<ChatMessage>, at: seq<nat>) {
    && AreAscending(at)
    && (forall k :: 0 <= k < |at| ==> at[k] < |history| && IsMessage(history, at[k]))
    && (forall i :: 0 <= i < |history| && IsMessage(history, i) ==> i in at)
  }

  ghost predicate AreKnown(history: seq<ChatMessage>, at: seq<nat>) {
    && AreAscending(at)
    && (forall k :: 0 <= k < |at| ==> at[k] < |history| && !history[at[k]].role.FromElsewhere?)
    && (forall i :: 0 <= i < |history| && !history[i].role.FromElsewhere? ==> i in at)
  }

  ghost predicate AreAt(history: seq<ChatMessage>, at: seq<nat>, kept: seq<ChatMessage>) {
    |at| == |kept| && forall k :: 0 <= k < |at| ==> at[k] < |history| && kept[k] == history[at[k]]
  }

  lemma OneMoreKnown(front: seq<ChatMessage>, last: ChatMessage, at: seq<nat>)
    requires AreKnown(front, at)
    ensures last.role.FromElsewhere? ==> AreKnown(front + [last], at)
    ensures !last.role.FromElsewhere? ==> AreKnown(front + [last], at + [|front|])
  {
    var history, all := front + [last], at + [|front|];
    assert history[|front|] == last && forall i :: 0 <= i < |front| ==> history[i] == front[i];
    assert all[|at|] == |front| && forall k :: 0 <= k < |at| ==> all[k] == at[k];
    forall i | 0 <= i < |front| && !history[i].role.FromElsewhere? ensures i in at && i in all {
      assert !front[i].role.FromElsewhere?;
    }
  }

  lemma OneMoreAt(front: seq<ChatMessage>, last: ChatMessage, at: seq<nat>, kept: seq<ChatMessage>)
    requires AreAt(front, at, kept)
    ensures AreAt(front + [last], at, kept) && AreAt(front + [last], at + [|front|], kept + [last])
  {
  }

  lemma {:induction false} KeptAreKnown(history: seq<ChatMessage>) returns (at: seq<nat>)
    ensures AreKnown(history, at) && AreAt(history, at, KeptOnly(history))
  {
    if history == [] {
      at := [];
    } else {
      var front, last := Init(history), Last(history);
      at := KeptAreKnown(front);
      InitAndLast(history);
      OneMoreKnown(front, last, at);
      OneMoreAt(front, last, at, KeptOnly(front));
      if last.role.FromElsewhere? {
        NothingMore(KeptOnly(front));
      } else {
        at := at + [|front|];
      }
    }
  }

  function Shift(at: seq<nat>): seq<nat> {
    seq(|at|, k requires 0 <= k < |at| => at[k] + 1)
  }

  lemma BehindTheFirst(history: seq<ChatMessage>, behind: seq<nat>)
    requires history != [] && history[0].role.FromSystem? && AreKnown(history[1..], behind)
    ensures AreMessages(history, Shift(behind))
  {
    var rest, at := history[1..], Shift(behind);
    assert forall i :: 0 <= i < |rest| ==> rest[i] == history[i + 1];
    forall i | 0 <= i < |history| && IsMessage(history, i) ensures i in at {
      assert !rest[i - 1].role.FromElsewhere?;
      var k :| 0 <= k < |behind| && behind[k] == i - 1;
      assert at[k] == i;
    }
  }

  lemma AtBehindTheFirst(history: seq<ChatMessage>, behind: seq<nat>, kept: seq<ChatMessage>)
    requires history != [] && AreAt(history[1..], behind, kept)
    ensures AreAt(history, Shift(behind), kept)
  {
  }

  lemma ConversationIsInOrder(history: seq<ChatMessage>) returns (at: seq<nat>)
    ensures AreMessages(history, at) && AreAt(history, at, Conversation(history))
  {
    if history != [] && history[0].role.FromSystem? {
      at := KeptAreKnown(history[1..]);
      BehindTheFirst(history, at);
      AtBehindTheFirst(history, at, KeptOnly(history[1..]));
      at := Shift(at);
    } else {
      at := KeptAreKnown(history);
    }
  }

  /** Just in front of the first message that is this turn's own context. */
  ghost predicate IsBoundary(history: seq<ChatMessage>, at: seq<nat>, k: nat)
    requires forall i :: 0 <= i < |at| ==> at[i] < |history|
  {
    k + 1 < |at| && history[at[k + 1]].turnContext && forall j :: 0 <= j <= k && j < |at| ==> !history[at[j]].turnContext
  }

  /** Only the last block that takes a mark is tagged. */
  ghost predicate LastIsTagged(blocks: seq<Block>) {
    forall b :: 0 <= b < |blocks| ==>
      (blocks[b].boundary <==> CacheBreakpoints.AcceptsCacheControl(blocks[b].kind) && forall c :: b < c < |blocks| ==> !CacheBreakpoints.AcceptsCacheControl(blocks[c].kind))
  }

  ghost predicate NoneIsTagged(blocks: seq<Block>) {
    forall b :: 0 <= b < |blocks| ==> !blocks[b].boundary
  }

  lemma TaggingTagsTheLast(m: Message)
    requires NoneIsTagged(BlocksOf(m.content))
    ensures LastIsTagged(BlocksOf(CacheBreakpoints.TaggedBoundary(m).content))
  {
    TaggingKeepsKinds(m);
    var blocks, tagged := BlocksOf(m.content), BlocksOf(CacheBreakpoints.TaggedBoundary(m).content);
    assert forall b :: 0 <= b < |blocks| ==> (tagged[b].boundary <==> b == CacheBreakpoints.LastAccepting(blocks));
  }

  lemma CleanTagsNothing(m: ChatMessage, model: Model, mode: ToolLoadingMode)
    requires !m.role.FromElsewhere?
    ensures NoneIsTagged(BlocksOf(Clean(m, model, mode).content))
  {
    match m.role
    case FromTool =>
    case FromSystem =>
    case FromAssistant =>
    case FromUser =>
  }

  lemma BoundaryIsInFront(history: seq<ChatMessage>, at: seq<nat>, k: nat)
    requires AreAt(history, at, Conversation(history)) && k < |at|
    ensures IsBoundary(history, at, k) <==> k + 1 == FirstTurnContext(Conversation(history))
  {
  }

  lemma BoundaryIsTagged(history: seq<ChatMessage>, model: Model, mode: ToolLoadingMode, k: nat)
    requires k < |Conversation(history)|
    ensures |Cleaned(history, model, mode)| == |Conversation(history)|
    ensures var blocks := BlocksOf(Cleaned(history, model, mode)[k].content);
      if k + 1 == FirstTurnContext(Conversation(history)) then LastIsTagged(blocks) else NoneIsTagged(blocks)
  {
    var clean := Clean(Conversation(history)[k], model, mode);
    CleanTagsNothing(Conversation(history)[k], model, mode);
    TaggingTagsTheLast(clean);
    TaggedExactlyThere(history, model, mode, k);
  }

  lemma TaggedExactlyThere(history: seq<ChatMessage>, model: Model, mode: ToolLoadingMode, k: nat)
    requires k < |Conversation(history)|
    ensures |Cleaned(history, model, mode)| == |Conversation(history)|
    ensures var clean := Clean(Conversation(history)[k], model, mode);
      Cleaned(history, model, mode)[k] == if k + 1 == FirstTurnContext(Conversation(history)) then CacheBreakpoints.TaggedBoundary(clean) else clean
  {
  }

  /** Each mapped message is what the message at its position was. */
  ghost predicate AreMapped(history: seq<ChatMessage>, at: seq<nat>, mapped: seq<Message>, model: Model, mode: ToolLoadingMode) {
    && |mapped| == |at|
    && forall k :: 0 <= k < |at| ==> at[k] < |history| && IsMapped(history[at[k]], mapped[k], model, mode)
  }

  /** The message in front of this turn's own context is tagged, on its last block that takes a mark, and no other. */
  ghost predicate AreTagged(history: seq<ChatMessage>, at: seq<nat>, mapped: seq<Message>)
    requires |mapped| == |at| && forall i :: 0 <= i < |at| ==> at[i] < |history|
  {
    forall k :: 0 <= k < |at| ==>
      if IsBoundary(history, at, k) then LastIsTagged(BlocksOf(mapped[k].content)) else NoneIsTagged(BlocksOf(mapped[k].content))
  }

  lemma AllAreMapped(history: seq<ChatMessage>, model: Model, mode: ToolLoadingMode, at: seq<nat>)
    requires AllStored(history) && AreAt(history, at, Conversation(history))
    ensures AreMapped(history, at, Cleaned(history, model, mode), model, mode)
  {
    forall k | 0 <= k < |at| ensures IsMapped(history[at[k]], Cleaned(history, model, mode)[k], model, mode) {
      EachMessageIsMapped(history, model, mode, k);
    }
  }

  lemma AllAreTagged(history: seq<ChatMessage>, model: Model, mode: ToolLoadingMode, at: seq<nat>)
    requires AreAt(history, at, Conversation(history)) && |Cleaned(history, model, mode)| == |at|
    ensures AreTagged(history, at, Cleaned(history, model, mode))
  {
    forall k | 0 <= k < |at|
      ensures var blocks := BlocksOf(Cleaned(history, model, mode)[k].content);
        if IsBoundary(history, at, k) then LastIsTagged(blocks) else NoneIsTagged(blocks)
    {
      BoundaryIsTagged(history, model, mode, k);
      BoundaryIsInFront(history, at, k);
    }
  }

  /**
   * The mapped messages are those of the history, one each and in order: all but a
   * leading system message and those of unknown roles, each as what it was.
   */
  lemma MappedInOrder(history: seq<ChatMessage>, model: Model, mode: ToolLoadingMode) returns (at: seq<nat>)
    requires AllStored(history)
    ensures AreMessages(history, at)
    ensures AreMapped(history, at, Cleaned(history, model, mode), model, mode)
    ensures AreTagged(history, at, Cleaned(history, model, mode))
  {
    at := ConversationIsInOrder(history);
    AllAreMapped(history, model, mode, at);
    AllAreTagged(history, model, mode, at);
  }

  /** The system prompt is what a system message at the start says, if it says something. */
  lemma SystemPromptIsTheFirst(history: seq<ChatMessage>)
    ensures SystemPrompt(history).Some? <==> history != [] && history[0].role == FromSystem && exists i :: 0 <= i < |history[0].content| && !IsSpace(history[0].content[i])
    ensures SystemPrompt(history).Some? ==> SystemPrompt(history).value == history[0].content
  {
  }

  // ── The leading run ───────────────────────────────────────────────

  /** In front of `from` there are only assistant messages, and there is something else at `from`, or nothing. */
  ghost predicate IsLeadingRun(history: seq<ChatMessage>, from: nat) {
    && from <= |history|
    && (forall i :: 0 <= i < from && IsMessage(history, i) ==> history[i].role.FromAssistant?)
    && (from < |history| ==> IsMessage(history, from) && !history[from].role.FromAssistant?)
  }

  lemma {:induction false} KeptAppends(a: seq<ChatMessage>, b: seq<ChatMessage>)
    ensures KeptOnly(a + b) == KeptOnly(a) + KeptOnly(b)
  {
    if b == [] {
      NothingMore(a);
      NothingMore(KeptOnly(a));
    } else {
      KeptAppends(a, Init(b));
      assert Init(a + b) == a + Init(b) && Last(a + b) == Last(b);
      Regroup(KeptOnly(a), KeptOnly(Init(b)), if Last(b).role.FromElsewhere? then [] else [Last(b)]);
    }
  }

  lemma {:induction false} KeptStartsAlike(history: seq<ChatMessage>)
    requires history != [] && !history[0].role.FromElsewhere?
    ensures KeptOnly(history) != [] && KeptOnly(history)[0] == history[0]
  {
    if |history| == 1 {
      assert Init(history) == [];
    } else {
      KeptStartsAlike(Init(history));
    }
  }

  lemma {:induction false} KeptFromAssistants(history: seq<ChatMessage>)
    requires forall i :: 0 <= i < |history| && !history[i].role.FromElsewhere? ==> history[i].role.FromAssistant?
    ensures forall i :: 0 <= i < |KeptOnly(history)| ==> KeptOnly(history)[i].role.FromAssistant?
  {
    if history != [] {
      assert forall i :: 0 <= i < |history| - 1 ==> Init(history)[i] == history[i];
      assert Last(history) == history[|history| - 1];
      KeptFromAssistants(Init(history));
    }
  }

  lemma {:induction false} LeadingAre(ms: seq<Message>, n: nat)
    requires n <= |ms| && (forall i :: 0 <= i < n ==> ms[i].role.Assistant?) && (n < |ms| ==> !ms[n].role.Assistant?)
    ensures LeadingAssistants(ms) == n
  {
  }

  lemma CleanedRoles(history: seq<ChatMessage>, model: Model, mode: ToolLoadingMode, i: nat)
    requires i < |Conversation(history)|
    ensures |Cleaned(history, model, mode)| == |Conversation(history)|
    ensures Cleaned(history, model, mode)[i].role.Assistant? <==> Conversation(history)[i].role.FromAssistant?
  {
    CleanedIs(history, model, mode, i);
    TaggingKeepsKinds(Clean(Conversation(history)[i], model, mode));
  }

  /** Every history has its leading run. */
  lemma LeadingRunExists(history: seq<ChatMessage>) returns (from: nat)
    ensures IsLeadingRun(history, from)
  {
    from := 0;
    while from < |history| && (!IsMessage(history, from) || history[from].role.FromAssistant?)
      invariant from <= |history|
      invariant forall i :: 0 <= i < from && IsMessage(history, i) ==> history[i].role.FromAssistant?
    {
      from := from + 1;
    }
  }

  lemma RunIsOfAssistants(history: seq<ChatMessage>, from: nat, skipped: nat)
    requires IsLeadingRun(history, from) && skipped <= from
    requires skipped == if history != [] && history[0].role.FromSystem? then 1 else 0
    ensures forall i :: 0 <= i < |KeptOnly(history[skipped..from])| ==> KeptOnly(history[skipped..from])[i].role.FromAssistant?
  {
    var before := history[skipped..from];
    forall i | 0 <= i < |before| && !before[i].role.FromElsewhere? ensures before[i].role.FromAssistant? {
      assert before[i] == history[skipped + i] && IsMessage(history, skipped + i);
    }
    KeptFromAssistants(before);
  }

  lemma CutTwice<T>(s: seq<T>, a: nat, b: nat)
    requires a <= b <= |s|
    ensures s[a..] == s[a..b] + s[b..]
  {
  }

  lemma ConversationIsCut(history: seq<ChatMessage>, from: nat) returns (front: seq<ChatMessage>)
    requires IsLeadingRun(history, from)
    ensures Conversation(history) == front + KeptOnly(history[from..])
    ensures forall i :: 0 <= i < |front| ==> front[i].role.FromAssistant?
  {
    var skipped := if history != [] && history[0].role.FromSystem? then 1 else 0;
    CutTwice(history, 0, |history|);
    NothingMore(history);
    CutTwice(history, skipped, from);
    KeptAppends(history[skipped..from], history[from..]);
    RunIsOfAssistants(history, from, skipped);
    front := KeptOnly(history[skipped..from]);
  }

  /** The assistant messages the mapped ones start with are those of the leading run. */
  lemma LeadingRunIsCut(history: seq<ChatMessage>, model: Model, mode: ToolLoadingMode, from: nat)
    requires IsLeadingRun(history, from)
    ensures var n := LeadingAssistants(Cleaned(history, model, mode));
      |Cleaned(history, model, mode)| == |Conversation(history)| && n <= |Conversation(history)| && Conversation(history)[n..] == KeptOnly(history[from..])
  {
    var kept, cleaned := Conversation(history), Cleaned(history, model, mode);
    var front := ConversationIsCut(history, from);
    forall i | 0 <= i < |kept| ensures cleaned[i].role.Assistant? <==> kept[i].role.FromAssistant? {
      CleanedRoles(history, model, mode, i);
    }
    if from < |history| {
      KeptStartsAlike(history[from..]);
      assert kept[|front|] == history[from..][0];
    }
    LeadingAre(cleaned, |front|);
    assert kept[|front|..] == KeptOnly(history[from..]);
  }

  // ── Over the whole history ────────────────────────────────────────

  lemma {:induction false} MappedAlike<A, B, T>(f: A -> seq<T>, g: B -> seq<T>, a: seq<A>, b: seq<B>)
    requires |a| == |b| && forall i :: 0 <= i < |a| ==> f(a[i]) == g(b[i])
    ensures FlatMap(f, a) == FlatMap(g, b)
  {
    if a != [] {
      assert forall i :: 0 <= i < |a| - 1 ==> Init(a)[i] == a[i] && Init(b)[i] == b[i];
      MappedAlike(f, g, Init(a), Init(b));
    }
  }

  lemma {:induction false} KeptGather<T>(f: ChatMessage -> seq<T>, history: seq<ChatMessage>)
    requires forall m: ChatMessage | m.role.FromElsewhere? :: f(m) == []
    ensures FlatMap(f, KeptOnly(history)) == FlatMap(f, history)
  {
    if history != [] {
      var last := Last(history);
      KeptGather(f, Init(history));
      if last.role.FromElsewhere? {
        NothingMore(KeptOnly(Init(history)));
        NothingMore(FlatMap(f, Init(history)));
      } else {
        FlatMapAppends(f, KeptOnly(Init(history)), [last]);
        FlatMapOne(f, last);
      }
    }
  }

  /** What neither system messages nor those of unknown roles hold is gathered from the whole history. */
  lemma ConversationGathers<T>(f: ChatMessage -> seq<T>, history: seq<ChatMessage>)
    requires forall m: ChatMessage | m.role.FromElsewhere? || m.role.FromSystem? :: f(m) == []
    ensures FlatMap(f, Conversation(history)) == FlatMap(f, history)
  {
    KeptGather(f, history);
    if history != [] && history[0].role.FromSystem? {
      KeptGather(f, history[1..]);
      SplitAt(history, 1);
      FlatMapAppends(f, history[..1], history[1..]);
      assert history[..1] == [history[0]];
      FlatMapOne(f, history[0]);
    }
  }

  /** Over the whole history no call and no result is lost, added, changed or moved. */
  lemma CallsAndResultsAreMapped(history: seq<ChatMessage>, model: Model, mode: ToolLoadingMode)
    requires AllStored(history)
    ensures FlatMap(CallsBy, Cleaned(history, model, mode)) == FlatMap(StoredCalls, history)
    ensures FlatMap(ResultsBy, Cleaned(history, model, mode)) == FlatMap(StoredResults, history)
  {
    var cleaned, kept := Cleaned(history, model, mode), Conversation(history);
    forall i | 0 <= i < |kept| ensures CallsBy(cleaned[i]) == StoredCalls(kept[i]) && ResultsBy(cleaned[i]) == StoredResults(kept[i]) {
      EachMessageIsMapped(history, model, mode, i);
    }
    MappedAlike(CallsBy, StoredCalls, cleaned, kept);
    MappedAlike(ResultsBy, StoredResults, cleaned, kept);
    ConversationGathers(StoredCalls, history);
    ConversationGathers(StoredResults, history);
  }
}
