/** The assistant's turns of a request say what the assistant said, letter for letter: nothing is lost and nothing is added but space. */
module RequestInk {
  import opened Prelude
  import opened AnthropicBlocks
  import opened MessageMerge
  import opened PrepareMessages
  import opened PreparedContent
  import opened PassEffects
  import opened HistoryMapping
  import opened RequestContent
  import ThinkingLayout
  import CacheBreakpoints
  import ToolReferences

  // ── Ink ───────────────────────────────────────────────────────────

  function Ink(c: char): string {
    if IsSpace(c) then "" else [c]
  }

  /** A text without any space. */
  function InkIn(text: string): string {
    FlatMap(Ink, text)
  }

  function InkKind(kind: Kind): string {
    if kind.Text? then InkIn(kind.text) else ""
  }

  function InkOf(b: Block): string {
    InkKind(b.kind)
  }

  /** The ink of an assistant turn's texts. */
  function InkBy(m: Message): string {
    if m.role.Assistant? then FlatMap(InkOf, BlocksOf(m.content)) else ""
  }

  lemma InkAppends(a: string, b: string)
    ensures InkIn(a + b) == InkIn(a) + InkIn(b)
  {
    FlatMapAppends(Ink, a, b);
  }

  lemma SpaceHasNoInk(text: string)
    requires IsBlank(text)
    ensures InkIn(text) == ""
  {
    NoneGathered(Ink, text);
  }

  lemma InkOfText(text: string)
    ensures FlatMap(InkOf, [Block(Text(text))]) == InkIn(text)
  {
    FlatMapOne(InkOf, Block(Text(text)));
  }

  lemma TrimmingKeepsInk(text: string)
    ensures InkIn(OrSpace(TrimEnd(text))) == InkIn(text)
  {
    var n := |TrimEnd(text)|;
    EndIsBlank(text);
    SplitAt(text, n);
    InkAppends(TrimEnd(text), text[n..]);
    SpaceHasNoInk(text[n..]);
    SpaceHasNoInk(" ");
    NothingMore(InkIn(TrimEnd(text)));
  }

  lemma {:induction false} TrimmingStartKeepsInk(text: string)
    ensures InkIn(TrimStart(text)) == InkIn(text)
  {
    if text != "" && IsSpace(text[0]) {
      TrimmingStartKeepsInk(text[1..]);
      SplitAt(text, 1);
      InkAppends(text[..1], text[1..]);
      SpaceHasNoInk(text[..1]);
    }
  }

  // ── Through the passes ────────────────────────────────────────────

  lemma JoiningAddsInk(a: Message, b: Message)
    requires a.role == b.role
    ensures InkBy(Joined(a, b)) == InkBy(a) + InkBy(b)
  {
    if Joined(a, b).content.PlainContent? {
      InkOfText(a.content.text);
      InkOfText(b.content.text);
      InkOfText(a.content.text + "\n\n" + b.content.text);
      InkAppends(a.content.text + "\n\n", b.content.text);
      InkAppends(a.content.text, "\n\n");
      SpaceHasNoInk("\n\n");
      NothingMore(InkIn(a.content.text));
    } else {
      FlatMapAppends(InkOf, BlocksOf(a.content), BlocksOf(b.content));
    }
  }

  lemma InkIsFromAssistants()
    ensures FromAssistants(InkBy)
  {
    forall a: Message, b: Message | a.role == b.role ensures InkBy(Joined(a, b)) == InkBy(a) + InkBy(b) {
      JoiningAddsInk(a, b);
    }
  }

  lemma {:induction false} CallsHaveNoInk(blocks: seq<Block>)
    ensures FlatMap(InkOf, WithoutCalls(blocks)) == FlatMap(InkOf, blocks)
  {
    if blocks != [] {
      var kept := if Last(blocks).kind.ToolUse? then [] else [Last(blocks)];
      CallsHaveNoInk(Init(blocks));
      FlatMapAppends(InkOf, WithoutCalls(Init(blocks)), kept);
      FlatMapOne(InkOf, Last(blocks));
      NothingMore(FlatMap(InkOf, Init(blocks)));
    }
  }

  lemma StrippingKeepsInk(m: Message)
    requires m.content.BlockContent?
    ensures InkBy(CallsStripped(m)) == InkBy(m)
  {
    CallsHaveNoInk(m.content.blocks);
    InkOfText(" ");
    SpaceHasNoInk(" ");
  }

  lemma TrimmedTurnKeepsInk(m: Message)
    ensures InkBy(TrimmedMessage(m)) == InkBy(m)
  {
    if m.role.Assistant? {
      match m.content
      case PlainContent(text) =>
        InkOfText(text);
        InkOfText(OrSpace(TrimEnd(text)));
        TrimmingKeepsInk(text);
      case BlockContent(blocks) =>
        var trimmed := TrimmedMessage(m).content.blocks;
        forall i | 0 <= i < |blocks| ensures InkOf(trimmed[i]) == InkOf(blocks[i]) {
          if blocks[i].kind.Text? { TrimmingKeepsInk(blocks[i].kind.text); }
        }
        GatheringAlike(InkOf, trimmed, blocks);
    }
  }

  lemma LastPassesKeepInk(turns: seq<Message>, model: Model)
    ensures FlatMap(InkBy, Capped(AllTrimmed(OrphansStripped(turns)), model)) == FlatMap(InkBy, turns)
  {
    var out := AllTrimmed(OrphansStripped(turns));
    forall i | 0 <= i < |turns| ensures InkBy(out[i]) == InkBy(turns[i]) {
      TrimmedTurnKeepsInk(OrphansStripped(turns)[i]);
      if turns[i].content.BlockContent? { StrippingKeepsInk(turns[i]); }
    }
    GatheringAlike(InkBy, out, turns);
    GatheredSnoc(InkBy, out, Message(User, PlainContent(CONTINUATION)));
  }

  /** The passes keep the ink of every assistant message but those in front. */
  lemma PassesKeepInk(stringify: ToolReferences.Stringify, cleaned: seq<Message>, model: Model)
    ensures FlatMap(InkBy, Passed(stringify, cleaned, model)) == FlatMap(InkBy, cleaned[LeadingAssistants(cleaned)..])
  {
    InkIsFromAssistants();
    TurnsKeep(InkBy, stringify, cleaned, model);
    LastPassesKeepInk(Turns(stringify, cleaned, model), model);
  }

  // ── From the history ──────────────────────────────────────────────

  /** The ink of what an assistant said: of the texts attached, unless calls displace them, then of its content. */
  function StoredInk(m: ChatMessage): string {
    if !m.role.FromAssistant? then ""
    else (if m.toolCalls == [] then FlatMap(InkKind, m.media) else "") + InkIn(m.content)
  }

  lemma InkOfKinds(kinds: seq<Kind>)
    ensures FlatMap(InkOf, AsBlocks(kinds)) == FlatMap(InkKind, kinds)
  {
    BlocksGatherLikeKinds(InkOf, InkKind, AsBlocks(kinds), kinds);
  }

  lemma TextIfAnyHoldsInk(content: string)
    ensures FlatMap(InkKind, TextIfAny(content)) == InkIn(content)
    ensures InkIn(OrBlank(content)) == InkIn(content)
  {
    if IsBlank(content) {
      SpaceHasNoInk(content);
      SpaceHasNoInk(" ");
    }
    FlatMapOne(InkKind, Text(content));
  }

  lemma {:induction false} IntroducedHasNoInk(stored: seq<ThinkingLayout.StoredThinking>, toolIds: seq<string>, calls: seq<ThinkingLayout.ToolCall>)
    requires forall i :: 0 <= i < |stored| ==> IsThinking(stored[i].kind)
    ensures FlatMap(InkKind, ThinkingLayout.Introduced(stored, toolIds, calls)) == ""
  {
    if calls != [] {
      var front := ThinkingLayout.Introduced(stored, toolIds, Init(calls));
      var queue := ThinkingLayout.At(stored, toolIds, ThinkingLayout.Before(Last(calls).id));
      var use := ToolUse(Last(calls).id, Last(calls).name, Last(calls).args);
      IntroducedHasNoInk(stored, toolIds, Init(calls));
      PlacedHasNoInk(stored, toolIds, ThinkingLayout.Before(Last(calls).id));
      FlatMapAppends(InkKind, front + queue, [use]);
      FlatMapAppends(InkKind, front, queue);
      FlatMapOne(InkKind, use);
    }
  }

  lemma PlacedHasNoInk(stored: seq<ThinkingLayout.StoredThinking>, toolIds: seq<string>, place: ThinkingLayout.Place)
    requires forall i :: 0 <= i < |stored| ==> IsThinking(stored[i].kind)
    ensures FlatMap(InkKind, ThinkingLayout.At(stored, toolIds, place)) == ""
  {
    AtIsStored(stored, toolIds, place);
    NoneGathered(InkKind, ThinkingLayout.At(stored, toolIds, place));
  }

  /** Of a laid-out turn only the texts have ink. */
  lemma LayoutHoldsInk(stored: seq<ThinkingLayout.StoredThinking>, texts: seq<Kind>, calls: seq<ThinkingLayout.ToolCall>)
    requires forall i :: 0 <= i < |stored| ==> IsThinking(stored[i].kind)
    ensures FlatMap(InkKind, ThinkingLayout.Layout(stored, texts, calls)) == FlatMap(InkKind, texts)
  {
    var ids := ThinkingLayout.CallIds(calls);
    var leading, rest, trailing := ThinkingLayout.At(stored, ids, ThinkingLayout.Leading),
      ThinkingLayout.Introduced(stored, ids, calls), ThinkingLayout.At(stored, ids, ThinkingLayout.Trailing);
    FlatMapAppends(InkKind, leading + texts, rest + trailing);
    FlatMapAppends(InkKind, leading, texts);
    FlatMapAppends(InkKind, rest, trailing);
    PlacedHasNoInk(stored, ids, ThinkingLayout.Leading);
    PlacedHasNoInk(stored, ids, ThinkingLayout.Trailing);
    IntroducedHasNoInk(stored, ids, calls);
  }

  lemma LegacyHoldsInk(m: ChatMessage, texts: seq<Kind>, calls: seq<ThinkingLayout.ToolCall>)
    ensures FlatMap(InkKind, LegacyThinking(m) + texts + ThinkingLayout.ToolUses(calls)) == FlatMap(InkKind, texts)
  {
    ToolUsesAreCalls(calls);
    FlatMapAppends(InkKind, LegacyThinking(m) + texts, ThinkingLayout.ToolUses(calls));
    FlatMapAppends(InkKind, LegacyThinking(m), texts);
    NoneGathered(InkKind, LegacyThinking(m));
    NoneGathered(InkKind, ThinkingLayout.ToolUses(calls));
  }

  lemma CallingTurnHoldsInk(m: ChatMessage)
    requires IsStored(m) && m.toolCalls != []
    ensures InkBy(CleanAssistant(m)) == InkIn(m.content)
  {
    TextIfAnyHoldsInk(m.content);
    if m.thinkingBlocks != [] {
      LayoutHoldsInk(m.thinkingBlocks, TextIfAny(m.content), m.toolCalls);
      InkOfKinds(ThinkingLayout.Layout(m.thinkingBlocks, TextIfAny(m.content), m.toolCalls));
    } else {
      LegacyHoldsInk(m, TextIfAny(m.content), m.toolCalls);
      InkOfKinds(LegacyThinking(m) + TextIfAny(m.content) + ThinkingLayout.ToolUses(m.toolCalls));
    }
  }

  lemma AttachingTurnHoldsInk(m: ChatMessage)
    requires m.toolCalls == [] && m.media != []
    ensures InkBy(CleanAssistant(m)) == FlatMap(InkKind, m.media) + InkIn(m.content)
  {
    var said := if m.content != "" then [Text(m.content)] else [];
    InkOfKinds(m.media + said);
    FlatMapAppends(InkKind, m.media, said);
    FlatMapOne(InkKind, Text(m.content));
    SpaceHasNoInk("");
  }

  lemma ThoughtfulTurnHoldsInk(m: ChatMessage)
    requires IsStored(m) && m.toolCalls == [] && m.media == [] && CleanAssistant(m).content.BlockContent?
    ensures InkBy(CleanAssistant(m)) == InkIn(m.content)
  {
    var texts := [Text(OrBlank(m.content))];
    TextIfAnyHoldsInk(m.content);
    FlatMapOne(InkKind, texts[0]);
    if m.thinkingBlocks != [] {
      LayoutHoldsInk(m.thinkingBlocks, texts, []);
      InkOfKinds(ThinkingLayout.Layout(m.thinkingBlocks, texts, []));
    } else {
      LegacyHoldsInk(m, texts, []);
      NothingMore(LegacyThinking(m) + texts);
      InkOfKinds(LegacyThinking(m) + texts);
    }
  }

  lemma PlainTurnHoldsInk(m: ChatMessage)
    requires CleanAssistant(m).content.PlainContent?
    ensures InkBy(CleanAssistant(m)) == InkIn(m.content)
  {
    InkOfText(CleanAssistant(m).content.text);
    TextIfAnyHoldsInk(m.content);
    TrimmingStartKeepsInk(TrimEnd(m.content));
    TrimmingKeepsInk(m.content);
    SpaceHasNoInk(" ");
    SpaceHasNoInk("");
  }

  lemma AssistantHoldsItsInk(m: ChatMessage)
    requires IsStored(m) && m.role.FromAssistant?
    ensures InkBy(CleanAssistant(m)) == StoredInk(m)
  {
    if m.toolCalls != [] {
      CallingTurnHoldsInk(m);
    } else if m.media != [] {
      AttachingTurnHoldsInk(m);
    } else if CleanAssistant(m).content.BlockContent? {
      ThoughtfulTurnHoldsInk(m);
    } else {
      PlainTurnHoldsInk(m);
    }
  }

  lemma InkIsMapped(history: seq<ChatMessage>, model: Model, mode: ToolLoadingMode, i: nat)
    requires AllStored(history) && i < |Conversation(history)|
    ensures |Cleaned(history, model, mode)| == |Conversation(history)|
    ensures InkBy(Cleaned(history, model, mode)[i]) == StoredInk(Conversation(history)[i])
  {
    var m := Conversation(history)[i];
    var clean := Clean(m, model, mode);
    ConversationIsStored(history);
    CleanedIs(history, model, mode, i);
    TaggingKeepsInk(clean);
    CleanHasItsRole(m, model, mode);
    if m.role.FromAssistant? {
      AssistantHoldsItsInk(m);
    }
  }

  lemma TaggingKeepsInk(m: Message)
    ensures InkBy(CacheBreakpoints.TaggedBoundary(m)) == InkBy(m)
  {
    TaggingKeepsKinds(m);
    GatheringAlike(InkOf, BlocksOf(CacheBreakpoints.TaggedBoundary(m).content), BlocksOf(m.content));
  }

  /**
   * Space apart, the assistant turns of the request say exactly what the assistant
   * said behind the leading run: every letter, in order, and not one more.
   */
  lemma AssistantSaysTheSame(stringify: ToolReferences.Stringify, history: seq<ChatMessage>, model: Model, mode: ToolLoadingMode, from: nat)
    requires AllStored(history) && IsLeadingRun(history, from)
    ensures FlatMap(InkBy, Prepared(stringify, history, model, mode)) == FlatMap(StoredInk, history[from..])
  {
    var kept, cleaned := Conversation(history), Cleaned(history, model, mode);
    PassesKeepInk(stringify, cleaned, model);
    forall i | 0 <= i < |kept| ensures InkBy(cleaned[i]) == StoredInk(kept[i]) {
      InkIsMapped(history, model, mode, i);
    }
    RestIsMapped(InkBy, StoredInk, history, model, mode, from);
  }
}
