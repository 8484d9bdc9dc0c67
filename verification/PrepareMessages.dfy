/**
 * From a conversation's history to the messages of one Anthropic request.
 * After the mapping, nine passes run one after the other; each could undo
 * what an earlier one established, and the request must be legal at the end.
 */
module PrepareMessages {
  import opened Prelude
  import opened AnthropicBlocks
  import opened MessageMerge
  import ThinkingLayout
  import ToolReferences
  import CacheBreakpoints

  // ── The history and its mapping ───────────────────────────────────

  datatype ChatRole = FromUser | FromAssistant | FromTool | FromSystem | FromElsewhere

  datatype ToolLoadingMode = NoLoading | ToolAddition | ToolReference

  datatype ToolActivation = ToolActivation(added: seq<string>, removed: seq<string>, sourceToolCallId: Option<string>)

  /**
   * A stored message. `resultId` is the id a tool message answers (its own
   * fallbacks resolved), `media` what its attachments became.
   */
  datatype ChatMessage = ChatMessage(
    role: ChatRole,
    content: string,
    resultId: string,
    toolCalls: seq<ThinkingLayout.ToolCall>,
    thinking: string,
    thinkingSignature: string,
    thinkingBlocks: seq<ThinkingLayout.StoredThinking>,
    media: seq<Kind>,
    activation: Option<ToolActivation>,
    turnScoped: bool,
    turnContext: bool)

  datatype Model = Model(keepsSystemRole: bool, rejectsPrefill: bool)

  const CONTINUATION := "Continue."

  function AsBlocks(kinds: seq<Kind>): seq<Block> {
    seq(|kinds|, i requires 0 <= i < |kinds| => Block(kinds[i]))
  }

  function OrBlank(content: string): string {
    if IsBlank(content) then " " else content
  }

  function Trimmed(content: string): string {
    TrimStart(TrimEnd(content))
  }

  function ToolChanges(activation: ToolActivation): seq<Kind> {
    seq(|activation.added|, i requires 0 <= i < |activation.added| => ToolChange(true, activation.added[i]))
    + seq(|activation.removed|, i requires 0 <= i < |activation.removed| => ToolChange(false, activation.removed[i]))
  }

  function TextIfAny(content: string): seq<Kind> {
    if IsBlank(content) then [] else [Text(content)]
  }

  function LegacyThinking(m: ChatMessage): seq<Kind> {
    if m.thinking != "" && m.thinkingSignature != "" then [Thinking(m.thinking, m.thinkingSignature)] else []
  }

  function CleanSystem(m: ChatMessage, model: Model, mode: ToolLoadingMode): Message {
    if model.keepsSystemRole then
      Message(System,
        if m.activation.Some? && mode.ToolAddition?
        then BlockContent(AsBlocks(TextIfAny(m.content) + ToolChanges(m.activation.value)))
        else PlainContent(m.content),
        m.turnScoped)
    else if m.activation.Some? && m.activation.value.added != [] && mode.ToolReference? then
      Message(User, BlockContent(AsBlocks([
        Text(m.content), ReferencePlaceholder(m.activation.value.added, m.activation.value.sourceToolCallId)])))
    else
      Message(User, PlainContent(m.content))
  }

  function CleanAssistant(m: ChatMessage): Message {
    if m.toolCalls != [] then
      Message(Assistant, BlockContent(AsBlocks(
        if m.thinkingBlocks != [] then ThinkingLayout.Layout(m.thinkingBlocks, TextIfAny(m.content), m.toolCalls)
        else LegacyThinking(m) + TextIfAny(m.content) + ThinkingLayout.ToolUses(m.toolCalls))))
    else if m.media != [] then
      Message(Assistant, BlockContent(AsBlocks(m.media + (if m.content != "" then [Text(m.content)] else []))))
    else if m.thinkingBlocks != [] then
      Message(Assistant, BlockContent(AsBlocks(ThinkingLayout.Layout(m.thinkingBlocks, [Text(OrBlank(m.content))], []))))
    else if m.thinking != "" then
      if m.thinkingSignature != "" then
        Message(Assistant, BlockContent(AsBlocks(LegacyThinking(m) + [Text(OrBlank(m.content))])))
      else
        Message(Assistant, PlainContent(OrSpace(Trimmed(m.content))))
    else
      Message(Assistant, PlainContent(OrBlank(m.content)))
  }

  function Clean(m: ChatMessage, model: Model, mode: ToolLoadingMode): Message
    requires !m.role.FromElsewhere?
  {
    match m.role
    case FromTool => Message(User, BlockContent(AsBlocks([ToolResult(m.resultId, PlainResult(m.content))])))
    case FromSystem => CleanSystem(m, model, mode)
    case FromAssistant => CleanAssistant(m)
    case FromUser =>
      if m.media != [] then
        Message(User, BlockContent(AsBlocks(m.media + (if m.content != "" then [Text(m.content)] else []))))
      else
        Message(User, PlainContent(OrSpace(m.content)))
  }

  function KeptOnly(history: seq<ChatMessage>): (kept: seq<ChatMessage>)
    ensures forall i :: 0 <= i < |kept| ==> !kept[i].role.FromElsewhere?
  {
    if history == [] then []
    else KeptOnly(Init(history)) + (if Last(history).role.FromElsewhere? then [] else [Last(history)])
  }

  /** A leading system message is the request's system prompt, not a message. */
  function Conversation(history: seq<ChatMessage>): seq<ChatMessage> {
    KeptOnly(if history != [] && history[0].role.FromSystem? then history[1..] else history)
  }

  function SystemPrompt(history: seq<ChatMessage>): Option<string> {
    if history != [] && history[0].role.FromSystem? && !IsBlank(history[0].content) then Some(history[0].content) else None
  }

  function FirstTurnContext(kept: seq<ChatMessage>): (at: int)
    ensures -1 <= at < |kept|
    ensures at >= 0 ==> kept[at].turnContext && forall i :: 0 <= i < at ==> !kept[i].turnContext
    ensures at < 0 ==> forall i :: 0 <= i < |kept| ==> !kept[i].turnContext
  {
    if kept == [] then -1
    else if kept[0].turnContext then 0
    else
      var rest := FirstTurnContext(kept[1..]);
      if rest < 0 then -1 else rest + 1
  }

  function Cleaned(history: seq<ChatMessage>, model: Model, mode: ToolLoadingMode): seq<Message> {
    var kept := Conversation(history);
    var cleaned := seq(|kept|, i requires 0 <= i < |kept| => Clean(kept[i], model, mode));
    var at := FirstTurnContext(kept);
    if at > 0 then cleaned[at - 1 := CacheBreakpoints.TaggedBoundary(cleaned[at - 1])] else cleaned
  }

  // ── The passes ────────────────────────────────────────────────────

  function WithoutToolChanges(blocks: seq<Block>): seq<Block> {
    if blocks == [] then []
    else WithoutToolChanges(Init(blocks)) + (if Last(blocks).kind.ToolChange? then [] else [Last(blocks)])
  }

  function Demoted(m: Message): Message {
    match m.content
    case PlainContent(_) => Message(User, m.content)
    case BlockContent(blocks) =>
      var kept := WithoutToolChanges(blocks);
      Message(User, BlockContent(if kept != [] then kept else [Block(Text(" "))]))
  }

  /** A system message follows a user turn and is last or followed by the assistant. */
  predicate IsPlacedAt(ms: seq<Message>, i: nat)
    requires i < |ms|
  {
    i > 0 && ms[i - 1].role.User? && (i == |ms| - 1 || ms[i + 1].role.Assistant?)
  }

  predicate IsMisplacedAt(ms: seq<Message>, i: nat)
    requires i < |ms|
  {
    ms[i].role.System? && !IsPlacedAt(ms, i)
  }

  function MisplacedDemoted(ms: seq<Message>): seq<Message> {
    seq(|ms|, i requires 0 <= i < |ms| => if IsMisplacedAt(ms, i) then Demoted(ms[i]) else ms[i])
  }

  function SystemsEnforced(ms: seq<Message>): seq<Message> {
    if exists i :: 0 <= i < |ms| && IsMisplacedAt(ms, i) then Merge(MisplacedDemoted(ms)) else ms
  }

  /** The loop reads neighbours it may already have demoted; after merging no two system messages are neighbours. */
  method EnforceSystemPlacement(ms: seq<Message>) returns (placed: seq<Message>)
    requires Alternates(ms)
    ensures placed == SystemsEnforced(ms)
  {
    placed := ms;
    var demotedAny := false;
    for i := 0 to |ms|
      invariant |placed| == |ms|
      invariant forall k :: 0 <= k < i ==> placed[k] == MisplacedDemoted(ms)[k]
      invariant forall k :: i <= k < |ms| ==> placed[k] == ms[k]
      invariant demotedAny <==> exists k :: 0 <= k < i && IsMisplacedAt(ms, k)
    {
      assert IsMisplacedAt(ms, i) <==> ms[i].role.System? && !IsPlacedAt(ms, i);
      if !placed[i].role.System? {
        continue;
      }
      assert i > 0 ==> ms[i - 1].role != ms[i].role;
      var followsUser := i > 0 && placed[i - 1].role.User?;
      var validSuccessor := i == |ms| - 1 || placed[i + 1].role.Assistant?;
      assert followsUser && validSuccessor <==> IsPlacedAt(ms, i);
      if !followsUser || !validSuccessor {
        placed := placed[i := Demoted(placed[i])];
        demotedAny := true;
      }
    }
    if demotedAny {
      assert placed == MisplacedDemoted(ms);
      placed := MergeConsecutiveSameRole(placed);
    } else {
      assert placed == ms;
    }
  }

  function ResultIds(blocks: seq<Block>): seq<string> {
    FlatMap((b: Block) => if b.kind.ToolResult? then [b.kind.toolUseId] else [], blocks)
  }

  /** The first result of each call; everything else. */
  function Deduplicated(blocks: seq<Block>): seq<Block> {
    if blocks == [] then []
    else if Last(blocks).kind.ToolResult? && Last(blocks).kind.toolUseId in ResultIds(Init(blocks)) then Deduplicated(Init(blocks))
    else Deduplicated(Init(blocks)) + [Last(blocks)]
  }

  method DeduplicateResults(blocks: seq<Block>) returns (unique: seq<Block>)
    ensures unique == Deduplicated(blocks)
  {
    unique := [];
    var seen: set<string> := {};
    for i := 0 to |blocks|
      invariant unique == Deduplicated(blocks[..i])
      invariant forall id :: id in seen <==> id in ResultIds(blocks[..i])
    {
      var kind := blocks[i].kind;
      assert Init(blocks[..i + 1]) == blocks[..i];
      if !kind.ToolResult? {
        unique := unique + [blocks[i]];
      } else if kind.toolUseId !in seen {
        seen := seen + {kind.toolUseId};
        unique := unique + [blocks[i]];
      }
    }
    assert blocks[..|blocks|] == blocks;
  }

  /** One user turn after deduplication and attachment; others stay. */
  function UserPass(stringify: ToolReferences.Stringify, m: Message): Message {
    if m.role.User? && m.content.BlockContent?
    then m.(content := BlockContent(ToolReferences.Attached(stringify, Deduplicated(m.content.blocks))))
    else m
  }

  function UserPasses(stringify: ToolReferences.Stringify, ms: seq<Message>): seq<Message> {
    seq(|ms|, i requires 0 <= i < |ms| => UserPass(stringify, ms[i]))
  }

  function Shifted(ms: seq<Message>): seq<Message> {
    if ms != [] && ms[0].role.Assistant? then ms[1..] else ms
  }

  predicate HasToolUse(m: Message) {
    m.content.BlockContent? && exists i :: 0 <= i < |m.content.blocks| && m.content.blocks[i].kind.ToolUse?
  }

  predicate HasToolResult(m: Message) {
    m.content.BlockContent? && exists i :: 0 <= i < |m.content.blocks| && m.content.blocks[i].kind.ToolResult?
  }

  predicate IsAnswered(ms: seq<Message>, i: nat) {
    i + 1 < |ms| && ms[i + 1].role.User? && HasToolResult(ms[i + 1])
  }

  function WithoutCalls(blocks: seq<Block>): seq<Block> {
    if blocks == [] then [] else WithoutCalls(Init(blocks)) + (if Last(blocks).kind.ToolUse? then [] else [Last(blocks)])
  }

  function CallsStripped(m: Message): Message
    requires m.content.BlockContent?
  {
    var kept := WithoutCalls(m.content.blocks);
    m.(content := if kept == [] then PlainContent(" ") else BlockContent(kept))
  }

  function OrphansStripped(ms: seq<Message>): seq<Message> {
    seq(|ms|, i requires 0 <= i < |ms| =>
      if ms[i].role.Assistant? && HasToolUse(ms[i]) && !IsAnswered(ms, i) then CallsStripped(ms[i]) else ms[i])
  }

  method StripOrphans(ms: seq<Message>) returns (stripped: seq<Message>)
    ensures stripped == OrphansStripped(ms)
  {
    stripped := ms;
    for i := 0 to |ms|
      invariant |stripped| == |ms|
      invariant forall k :: 0 <= k < i ==> stripped[k] == OrphansStripped(ms)[k]
      invariant forall k :: i <= k < |ms| ==> stripped[k] == ms[k]
    {
      var message := stripped[i];
      if !message.role.Assistant? || !HasToolUse(message) {
        continue;
      }
      var nextHasToolResult := i + 1 < |stripped| && stripped[i + 1].role.User? && HasToolResult(stripped[i + 1]);
      if !nextHasToolResult {
        stripped := stripped[i := CallsStripped(message)];
      }
    }
  }

  function TrimmedBlock(b: Block): Block {
    if b.kind.Text? then b.(kind := Text(OrSpace(TrimEnd(b.kind.text)))) else b
  }

  function TrimmedMessage(m: Message): Message {
    if !m.role.Assistant? then m
    else
      match m.content
      case PlainContent(text) => m.(content := PlainContent(OrSpace(TrimEnd(text))))
      case BlockContent(blocks) => m.(content := BlockContent(seq(|blocks|, i requires 0 <= i < |blocks| => TrimmedBlock(blocks[i]))))
  }

  function AllTrimmed(ms: seq<Message>): seq<Message> {
    seq(|ms|, i requires 0 <= i < |ms| => TrimmedMessage(ms[i]))
  }

  function Capped(ms: seq<Message>, model: Model): seq<Message> {
    if ms != [] && Last(ms).role.Assistant? && model.rejectsPrefill then ms + [Message(User, PlainContent(CONTINUATION))] else ms
  }

  function Placed(cleaned: seq<Message>, model: Model): seq<Message> {
    if model.keepsSystemRole then SystemsEnforced(Merge(cleaned)) else Merge(cleaned)
  }

  /** Everything after the mapping. */
  function Passed(stringify: ToolReferences.Stringify, cleaned: seq<Message>, model: Model): seq<Message> {
    Capped(AllTrimmed(OrphansStripped(Shifted(UserPasses(stringify, Placed(cleaned, model))))), model)
  }

  function Prepared(stringify: ToolReferences.Stringify, history: seq<ChatMessage>, model: Model, mode: ToolLoadingMode): seq<Message> {
    Passed(stringify, Cleaned(history, model, mode), model)
  }

  /** Trailing whitespace goes from every assistant text, block by block. */
  method TrimAssistantTexts(ms: seq<Message>) returns (trimmed: seq<Message>)
    ensures trimmed == AllTrimmed(ms)
  {
    trimmed := ms;
    for i := 0 to |ms|
      invariant |trimmed| == |ms|
      invariant forall k :: 0 <= k < i ==> trimmed[k] == AllTrimmed(ms)[k]
      invariant forall k :: i <= k < |ms| ==> trimmed[k] == ms[k]
    {
      if !ms[i].role.Assistant? {
        continue;
      }
      match ms[i].content {
        case PlainContent(text) =>
          trimmed := trimmed[i := ms[i].(content := PlainContent(OrSpace(TrimEnd(text))))];
        case BlockContent(blocks) =>
          var texts := blocks;
          for b := 0 to |blocks|
            invariant |texts| == |blocks|
            invariant forall k :: 0 <= k < b ==> texts[k] == TrimmedBlock(blocks[k])
            invariant forall k :: b <= k < |blocks| ==> texts[k] == blocks[k]
          {
            if blocks[b].kind.Text? {
              texts := texts[b := blocks[b].(kind := Text(OrSpace(TrimEnd(blocks[b].kind.text))))];
            }
          }
          assert BlockContent(texts) == TrimmedMessage(ms[i]).content;
          trimmed := trimmed[i := ms[i].(content := BlockContent(texts))];
      }
    }
  }

  method PassUserTurns(stringify: ToolReferences.Stringify, ms: seq<Message>) returns (passed: seq<Message>)
    ensures passed == UserPasses(stringify, ms)
  {
    passed := ms;
    for i := 0 to |ms|
      invariant |passed| == |ms|
      invariant forall k :: 0 <= k < i ==> passed[k] == UserPasses(stringify, ms)[k]
      invariant forall k :: i <= k < |ms| ==> passed[k] == ms[k]
    {
      if ms[i].role.User? && ms[i].content.BlockContent? {
        var blocks := DeduplicateResults(ms[i].content.blocks);
        blocks := ToolReferences.AttachToolReferences(stringify, blocks);
        passed := passed[i := ms[i].(content := BlockContent(blocks))];
      }
    }
  }

  method MapHistory(history: seq<ChatMessage>, model: Model, mode: ToolLoadingMode) returns (cleaned: seq<Message>)
    ensures cleaned == Cleaned(history, model, mode)
  {
    var kept := Conversation(history);
    cleaned := seq(|kept|, i requires 0 <= i < |kept| => Clean(kept[i], model, mode));
    var firstTurnContext := FirstTurnContext(kept);
    if firstTurnContext > 0 {
      var tagged := CacheBreakpoints.TagCacheBoundary(cleaned[firstTurnContext - 1]);
      cleaned := cleaned[firstTurnContext - 1 := tagged];
    }
  }

  /** The passes, one after the other, on one list. */
  method RunPasses(stringify: ToolReferences.Stringify, cleaned: seq<Message>, model: Model) returns (merged: seq<Message>)
    ensures merged == Passed(stringify, cleaned, model)
  {
    merged := MergeConsecutiveSameRole(cleaned);
    MergedAlternates(cleaned);
    if model.keepsSystemRole {
      merged := EnforceSystemPlacement(merged);
    }
    merged := PassUserTurns(stringify, merged);
    if merged != [] && merged[0].role.Assistant? {
      merged := merged[1..];
    }
    merged := StripOrphans(merged);
    merged := TrimAssistantTexts(merged);
    if merged != [] && Last(merged).role.Assistant? && model.rejectsPrefill {
      merged := merged + [Message(User, PlainContent(CONTINUATION))];
    }
  }

  /** The request's system prompt and messages. */
  method Prepare(stringify: ToolReferences.Stringify, history: seq<ChatMessage>, model: Model, mode: ToolLoadingMode)
    returns (systemPrompt: Option<string>, messages: seq<Message>)
    ensures systemPrompt == SystemPrompt(history) && messages == Prepared(stringify, history, model, mode)
    ensures IsLegal(messages)
  {
    systemPrompt := SystemPrompt(history);
    var cleaned := MapHistory(history, model, mode);
    messages := RunPasses(stringify, cleaned, model);
    PreparedIsLegal(stringify, history, model, mode);
  }

  // ── What makes a request legal ────────────────────────────────────

  ghost predicate SystemsArePlaced(ms: seq<Message>) {
    forall i :: 0 <= i < |ms| && ms[i].role.System? ==> IsPlacedAt(ms, i)
  }

  ghost predicate StartsWithUser(ms: seq<Message>) {
    ms == [] || ms[0].role.User?
  }

  ghost predicate CallsAreAnswered(ms: seq<Message>) {
    forall i :: 0 <= i < |ms| && ms[i].role.Assistant? && HasToolUse(ms[i]) ==> IsAnswered(ms, i)
  }

  /** No call has two results in one user turn, and no placeholder is left. */
  ghost predicate UserTurnIsClean(m: Message) {
    m.role.User? && m.content.BlockContent? ==> Distinct(ResultIds(m.content.blocks)) && ToolReferences.NoPlaceholder(m.content.blocks)
  }

  predicate EndsClean(text: string) {
    text == " " || (text != "" && !IsSpace(Last(text)))
  }

  ghost predicate AssistantTextsEndClean(m: Message) {
    m.role.Assistant? ==>
      match m.content
      case PlainContent(text) => EndsClean(text)
      case BlockContent(blocks) => forall i :: 0 <= i < |blocks| && blocks[i].kind.Text? ==> EndsClean(blocks[i].kind.text)
  }

  ghost predicate IsLegal(ms: seq<Message>) {
    && StartsWithUser(ms) && Alternates(ms) && SystemsArePlaced(ms) && CallsAreAnswered(ms)
    && (forall i :: 0 <= i < |ms| ==> UserTurnIsClean(ms[i]) && AssistantTextsEndClean(ms[i]))
  }

  // ── Each pass keeps what the earlier ones established ─────────────

  /** Two lists of turns with the same roles alternate alike and place systems alike. */
  ghost predicate SameRoles(a: seq<Message>, b: seq<Message>) {
    |a| == |b| && forall i :: 0 <= i < |a| ==> a[i].role == b[i].role
  }

  lemma SameRolesSameShape(a: seq<Message>, b: seq<Message>)
    requires SameRoles(a, b)
    ensures Alternates(a) ==> Alternates(b)
    ensures SystemsArePlaced(a) ==> SystemsArePlaced(b)
    ensures StartsWithUser(a) ==> StartsWithUser(b)
  {
  }

  lemma DemotingPlacesSystems(ms: seq<Message>)
    requires Alternates(ms)
    ensures SystemsArePlaced(MisplacedDemoted(ms))
  {
    var after := MisplacedDemoted(ms);
    forall i | 0 <= i < |after| && after[i].role.System?
      ensures IsPlacedAt(after, i)
    {
      assert IsPlacedAt(ms, i);
      assert after[i - 1].role.User?;
    }
  }

  lemma MergingOneKeepsPlaced(before: seq<Message>, merged: seq<Message>, last: Message)
    requires SystemsArePlaced(before + [last]) && SystemsArePlaced(merged)
    requires before == [] <==> merged == []
    requires before != [] ==> Last(merged).role == Last(before).role
    ensures SystemsArePlaced(MergeInto(merged, last))
  {
    var all, after := before + [last], MergeInto(merged, last);
    assert all[|before|] == last;
    if before != [] {
      assert all[|before| - 1] == Last(before);
      assert last.role.System? ==> IsPlacedAt(all, |before|);
      assert Last(before).role.System? ==> IsPlacedAt(all, |before| - 1);
    } else {
      assert !last.role.System?;
    }
    forall i | 0 <= i < |after| && after[i].role.System?
      ensures IsPlacedAt(after, i)
    {
      if i < |merged| {
        assert merged[i].role == after[i].role;
        assert IsPlacedAt(merged, i);
      }
    }
  }

  lemma {:induction false} MergingKeepsPlaced(ms: seq<Message>)
    requires SystemsArePlaced(ms)
    ensures SystemsArePlaced(Merge(ms))
  {
    if ms != [] {
      var before := Init(ms);
      forall i | 0 <= i < |before| && before[i].role.System?
        ensures IsPlacedAt(before, i)
      {
        assert IsPlacedAt(ms, i);
      }
      MergingKeepsPlaced(before);
      MergedAlternates(before);
      if before != [] {
        MergedEndsAlike(before);
      }
      assert before + [Last(ms)] == ms;
      MergingOneKeepsPlaced(before, Merge(before), Last(ms));
    }
  }

  lemma SystemsEnforcedIsPlaced(ms: seq<Message>)
    requires Alternates(ms)
    ensures Alternates(SystemsEnforced(ms)) && SystemsArePlaced(SystemsEnforced(ms))
  {
    if exists i :: 0 <= i < |ms| && IsMisplacedAt(ms, i) {
      DemotingPlacesSystems(ms);
      MergingKeepsPlaced(MisplacedDemoted(ms));
      MergedAlternates(MisplacedDemoted(ms));
    } else {
      forall i | 0 <= i < |ms| && ms[i].role.System?
        ensures IsPlacedAt(ms, i)
      {
        assert !IsMisplacedAt(ms, i);
      }
    }
  }

  lemma ResultIdsAppend(a: seq<Block>, b: seq<Block>)
    ensures ResultIds(a + b) == ResultIds(a) + ResultIds(b)
  {
    FlatMapAppends((b: Block) => if b.kind.ToolResult? then [b.kind.toolUseId] else [], a, b);
  }

  lemma ResultIdsOfOne(b: Block)
    ensures ResultIds([b]) == if b.kind.ToolResult? then [b.kind.toolUseId] else []
  {
    FlatMapOne((b: Block) => if b.kind.ToolResult? then [b.kind.toolUseId] else [], b);
  }

  lemma {:induction false} DeduplicatingIsDistinct(blocks: seq<Block>)
    ensures Distinct(ResultIds(Deduplicated(blocks)))
    ensures forall id :: id in ResultIds(Deduplicated(blocks)) <==> id in ResultIds(blocks)
  {
    if blocks != [] {
      DeduplicatingIsDistinct(Init(blocks));
      InitAndLast(blocks);
      ResultIdsAppend(Init(blocks), [Last(blocks)]);
      ResultIdsAppend(Deduplicated(Init(blocks)), [Last(blocks)]);
      ResultIdsOfOne(Last(blocks));
    }
  }

  /** Attachment moves text and references, never results. */
  lemma {:induction false} OthersKeepResultIds(blocks: seq<Block>)
    ensures ResultIds(ToolReferences.Others(blocks)) == ResultIds(blocks)
  {
    if blocks != [] {
      OthersKeepResultIds(Init(blocks));
      InitAndLast(blocks);
      ResultIdsAppend(Init(blocks), [Last(blocks)]);
      ResultIdsAppend(ToolReferences.Others(Init(blocks)), [Last(blocks)]);
      ResultIdsOfOne(Last(blocks));
      assert ResultIds(blocks) + [] == ResultIds(blocks);
      assert ToolReferences.Others(Init(blocks)) + [] == ToolReferences.Others(Init(blocks));
    }
  }

  lemma CarryingKeepsResultIds(stringify: ToolReferences.Stringify, target: Block, names: seq<string>)
    requires target.kind.ToolResult?
    ensures ResultIds(ToolReferences.Carrying(stringify, target, names)) == ResultIds([target])
  {
    var carrying := ToolReferences.Carrying(stringify, target, names);
    assert carrying == [carrying[0]] + carrying[1..];
    ResultIdsAppend([carrying[0]], carrying[1..]);
    ResultIdsOfOne(carrying[0]);
    ResultIdsOfOne(target);
    if carrying[1..] != [] {
      ResultIdsOfOne(carrying[1]);
      assert carrying[1..] == [carrying[1]];
    }
  }

  lemma AttachingOneKeepsResultIds(stringify: ToolReferences.Stringify, output: seq<Block>, attachment: ToolReferences.Attachment)
    ensures ResultIds(ToolReferences.AttachOne(stringify, output, attachment)) == ResultIds(output)
  {
    var at := ToolReferences.Target(output, attachment.sourceToolCallId);
    if at >= 0 {
      var a, b := output[..at], output[at + 1..];
      var carrying := ToolReferences.Carrying(stringify, output[at], attachment.names);
      assert output == a + [output[at]] + b;
      CarryingKeepsResultIds(stringify, output[at], attachment.names);
      ResultIdsAppend(a + carrying, b);
      ResultIdsAppend(a, carrying);
      ResultIdsAppend(a + [output[at]], b);
      ResultIdsAppend(a, [output[at]]);
    }
  }

  lemma {:induction false} AttachingKeepsResultIds(stringify: ToolReferences.Stringify, output: seq<Block>, attachments: seq<ToolReferences.Attachment>)
    ensures ResultIds(ToolReferences.AttachAll(stringify, output, attachments)) == ResultIds(output)
  {
    if attachments != [] {
      AttachingKeepsResultIds(stringify, output, Init(attachments));
      AttachingOneKeepsResultIds(stringify, ToolReferences.AttachAll(stringify, output, Init(attachments)), Last(attachments));
    }
  }

  lemma UserPassIsClean(stringify: ToolReferences.Stringify, m: Message)
    ensures UserPass(stringify, m).role == m.role
    ensures UserTurnIsClean(UserPass(stringify, m))
  {
    if m.role.User? && m.content.BlockContent? {
      var unique := Deduplicated(m.content.blocks);
      DeduplicatingIsDistinct(m.content.blocks);
      OthersKeepResultIds(unique);
      AttachingKeepsResultIds(stringify, ToolReferences.Others(unique), ToolReferences.Attachments(unique));
      ToolReferences.NoPlaceholderIsLeft(stringify, unique);
    }
  }

  ghost predicate AllUserTurnsClean(ms: seq<Message>) {
    forall i :: 0 <= i < |ms| ==> UserTurnIsClean(ms[i])
  }

  lemma ShiftingStartsWithUser(ms: seq<Message>)
    requires Alternates(ms) && SystemsArePlaced(ms) && AllUserTurnsClean(ms)
    ensures var after := Shifted(ms);
      StartsWithUser(after) && Alternates(after) && SystemsArePlaced(after) && AllUserTurnsClean(after)
  {
    if ms != [] {
      var after := Shifted(ms);
      assert !ms[0].role.System?;
      if ms[0].role.Assistant? {
        assert |ms| > 1 ==> ms[0].role != ms[1].role && !ms[1].role.System?;
        assert forall i :: 0 <= i < |after| ==> after[i] == ms[i + 1];
        forall i | 0 <= i < |after| && after[i].role.System?
          ensures IsPlacedAt(after, i)
        {
          assert IsPlacedAt(ms, i + 1);
        }
      }
    }
  }

  lemma {:induction false} NoCallsLeft(blocks: seq<Block>)
    ensures forall i :: 0 <= i < |WithoutCalls(blocks)| ==> !WithoutCalls(blocks)[i].kind.ToolUse?
  {
    if blocks != [] {
      NoCallsLeft(Init(blocks));
    }
  }

  lemma StrippingAnswersCalls(ms: seq<Message>)
    requires AllUserTurnsClean(ms)
    ensures var after := OrphansStripped(ms);
      && SameRoles(ms, after) && AllUserTurnsClean(after) && CallsAreAnswered(after)
      && forall i :: 0 <= i < |ms| && !ms[i].role.Assistant? ==> after[i] == ms[i]
  {
    var after := OrphansStripped(ms);
    assert forall i :: 0 <= i < |ms| && ms[i].role.User? ==> after[i] == ms[i];
    forall i | 0 <= i < |after| && after[i].role.Assistant? && HasToolUse(after[i])
      ensures IsAnswered(after, i)
    {
      if HasToolUse(ms[i]) && !IsAnswered(ms, i) {
        NoCallsLeft(ms[i].content.blocks);
      }
    }
  }

  lemma TrimmingKeepsCalls(m: Message)
    ensures TrimmedMessage(m).role == m.role
    ensures m.role.Assistant? ==> (HasToolUse(TrimmedMessage(m)) <==> HasToolUse(m))
    ensures !m.role.Assistant? ==> TrimmedMessage(m) == m
    ensures AssistantTextsEndClean(TrimmedMessage(m))
  {
    if m.role.Assistant? && m.content.BlockContent? {
      var before, after := m.content.blocks, TrimmedMessage(m).content.blocks;
      assert forall i :: 0 <= i < |before| ==> after[i].kind.ToolUse? == before[i].kind.ToolUse?;
    }
  }

  lemma TrimmingKeepsLegal(ms: seq<Message>)
    requires AllUserTurnsClean(ms) && CallsAreAnswered(ms)
    ensures var after := AllTrimmed(ms);
      && SameRoles(ms, after) && AllUserTurnsClean(after) && CallsAreAnswered(after)
      && forall i :: 0 <= i < |after| ==> AssistantTextsEndClean(after[i])
  {
    var after := AllTrimmed(ms);
    forall i | 0 <= i < |ms|
      ensures after[i].role == ms[i].role && AssistantTextsEndClean(after[i]) && UserTurnIsClean(after[i])
      ensures ms[i].role.Assistant? && HasToolUse(after[i]) ==> IsAnswered(after, i)
    {
      TrimmingKeepsCalls(ms[i]);
      if i + 1 < |ms| {
        TrimmingKeepsCalls(ms[i + 1]);
      }
    }
  }

  lemma CappingKeepsLegal(ms: seq<Message>, model: Model)
    requires IsLegal(ms)
    ensures IsLegal(Capped(ms, model))
    ensures model.rejectsPrefill && Capped(ms, model) != [] ==> !Last(Capped(ms, model)).role.Assistant?
  {
    var after := Capped(ms, model);
    if after != ms {
      assert forall i :: 0 <= i < |ms| ==> after[i] == ms[i];
      assert !HasToolUse(ms[|ms| - 1]);
      forall i | 0 <= i < |after| && after[i].role.System?
        ensures IsPlacedAt(after, i)
      {
        assert IsPlacedAt(ms, i);
      }
      forall i | 0 <= i < |after| && after[i].role.Assistant? && HasToolUse(after[i])
        ensures IsAnswered(after, i)
      {
        assert IsAnswered(ms, i);
      }
    }
  }

  /** Whatever the mapping produced, the passes leave a legal request. */
  lemma PassedIsLegal(stringify: ToolReferences.Stringify, cleaned: seq<Message>, model: Model)
    requires !model.keepsSystemRole ==> forall i :: 0 <= i < |cleaned| ==> !cleaned[i].role.System?
    ensures IsLegal(Passed(stringify, cleaned, model))
  {
    var merged := Merge(cleaned);
    MergedAlternates(cleaned);
    var placed := if model.keepsSystemRole then SystemsEnforced(merged) else merged;
    if model.keepsSystemRole {
      SystemsEnforcedIsPlaced(merged);
    } else {
      NoSystemsAppear(cleaned);
    }
    var users := UserPasses(stringify, placed);
    forall i | 0 <= i < |placed|
      ensures users[i].role == placed[i].role && UserTurnIsClean(users[i])
    {
      UserPassIsClean(stringify, placed[i]);
    }
    SameRolesSameShape(placed, users);
    var shifted := Shifted(users);
    ShiftingStartsWithUser(users);
    var stripped := OrphansStripped(shifted);
    StrippingAnswersCalls(shifted);
    SameRolesSameShape(shifted, stripped);
    TrimmingKeepsLegal(stripped);
    SameRolesSameShape(stripped, AllTrimmed(stripped));
    CappingKeepsLegal(AllTrimmed(stripped), model);
  }

  lemma {:induction false} NoSystemsAppear(ms: seq<Message>)
    requires forall i :: 0 <= i < |ms| ==> !ms[i].role.System?
    ensures forall i :: 0 <= i < |Merge(ms)| ==> !Merge(ms)[i].role.System?
  {
    if ms != [] {
      assert !ms[|ms| - 1].role.System?;
      NoSystemsAppear(Init(ms));
    }
  }

  lemma CleanHasNoSystem(m: ChatMessage, model: Model, mode: ToolLoadingMode)
    requires !m.role.FromElsewhere? && !model.keepsSystemRole
    ensures !Clean(m, model, mode).role.System?
  {
  }

  lemma CleanedHasNoSystem(history: seq<ChatMessage>, model: Model, mode: ToolLoadingMode)
    requires !model.keepsSystemRole
    ensures forall i :: 0 <= i < |Cleaned(history, model, mode)| ==> !Cleaned(history, model, mode)[i].role.System?
  {
    var kept := Conversation(history);
    forall i | 0 <= i < |kept|
      ensures !Clean(kept[i], model, mode).role.System?
    {
      CleanHasNoSystem(kept[i], model, mode);
    }
  }

  /** For every history and model, the prepared request is legal. */
  lemma PreparedIsLegal(stringify: ToolReferences.Stringify, history: seq<ChatMessage>, model: Model, mode: ToolLoadingMode)
    ensures IsLegal(Prepared(stringify, history, model, mode))
  {
    if !model.keepsSystemRole {
      CleanedHasNoSystem(history, model, mode);
    }
    PassedIsLegal(stringify, Cleaned(history, model, mode), model);
  }

  // ── The moving cache mark on prepared messages ────────────────────

  ghost predicate OnlySystemsAreScoped(ms: seq<Message>) {
    forall i :: 0 <= i < |ms| && ms[i].turnScoped ==> ms[i].role.System?
  }

  lemma {:induction false} MergingScopesOnlySystems(ms: seq<Message>)
    requires OnlySystemsAreScoped(ms)
    ensures OnlySystemsAreScoped(Merge(ms))
  {
    if ms != [] {
      assert ms[|ms| - 1] == Last(ms);
      assert OnlySystemsAreScoped(Init(ms));
      MergingScopesOnlySystems(Init(ms));
    }
  }

  lemma CleanedScopesOnlySystems(history: seq<ChatMessage>, model: Model, mode: ToolLoadingMode)
    ensures OnlySystemsAreScoped(Cleaned(history, model, mode))
  {
    var kept := Conversation(history);
    forall i | 0 <= i < |kept|
      ensures Clean(kept[i], model, mode).turnScoped ==> Clean(kept[i], model, mode).role.System?
    {
      CleanScopesOnlySystems(kept[i], model, mode);
    }
  }

  lemma CleanScopesOnlySystems(m: ChatMessage, model: Model, mode: ToolLoadingMode)
    requires !m.role.FromElsewhere?
    ensures Clean(m, model, mode).turnScoped ==> Clean(m, model, mode).role.System?
  {
  }

  lemma PassedScopesOnlySystems(stringify: ToolReferences.Stringify, cleaned: seq<Message>, model: Model)
    requires OnlySystemsAreScoped(cleaned)
    ensures OnlySystemsAreScoped(Passed(stringify, cleaned, model))
  {
    var merged := Merge(cleaned);
    MergingScopesOnlySystems(cleaned);
    MergingScopesOnlySystems(MisplacedDemoted(merged));
    var placed := if model.keepsSystemRole then SystemsEnforced(merged) else merged;
    var users := UserPasses(stringify, placed);
    assert OnlySystemsAreScoped(users);
    var shifted := Shifted(users);
    assert OnlySystemsAreScoped(shifted);
    var stripped := OrphansStripped(shifted);
    assert OnlySystemsAreScoped(stripped);
    assert OnlySystemsAreScoped(AllTrimmed(stripped));
  }

  /** On prepared messages the moving cache mark never lands on a turn-scoped one. */
  lemma MovingMarkSkipsTurnScoped(stringify: ToolReferences.Stringify, history: seq<ChatMessage>, model: Model, mode: ToolLoadingMode)
    ensures var messages := Prepared(stringify, history, model, mode);
      messages != [] ==>
        var p := CacheBreakpoints.MovingMark(CacheBreakpoints.MarkedMaybe(messages, CacheBreakpoints.BoundaryMark(messages)));
        p.Some? ==> p.value.message < |messages| && !messages[p.value.message].turnScoped
  {
    var messages := Prepared(stringify, history, model, mode);
    PreparedIsLegal(stringify, history, model, mode);
    CleanedScopesOnlySystems(history, model, mode);
    PassedScopesOnlySystems(stringify, Cleaned(history, model, mode), model);
    if messages != [] {
      CacheBreakpoints.MovingMarkIsOutsideTurnScope(messages);
    }
  }
}
