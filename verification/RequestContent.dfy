/** What the request holds of a history: all the user's parts, all thinking, every result, and the calls that are answered. */
module RequestContent {
  import opened Prelude
  import opened AnthropicBlocks
  import opened MessageMerge
  import opened PrepareMessages
  import opened PreparedContent
  import opened HistoryMapping
  import ThinkingLayout
  import CacheBreakpoints
  import ToolReferences

  // ── Everything the user said and attached ─────────────────────────

  /** The parts of a user message: its attachments, then its text, unless it is empty. */
  function UserParts(m: ChatMessage): seq<Kind> {
    if m.role.FromUser? then m.media + (if m.content != "" then [Text(m.content)] else []) else []
  }

  function KindOf(b: Block): seq<Kind> {
    [b.kind]
  }

  function SaidKindsBy(m: Message): seq<Kind> {
    FlatMap(KindOf, SaidBy(m))
  }

  /** What the user turns of a request hold, results and placeholders apart. */
  function SaidKinds(ms: seq<Message>): seq<Kind> {
    FlatMap(KindOf, Said(ms))
  }

  lemma {:induction false} KindsBySaid(ms: seq<Message>)
    ensures SaidKinds(ms) == FlatMap(SaidKindsBy, ms)
  {
    if ms != [] {
      KindsBySaid(Init(ms));
      FlatMapAppends(KindOf, Said(Init(ms)), SaidBy(Last(ms)));
    }
  }

  lemma {:induction false} KindsOfSubsequence(a: seq<Block>, b: seq<Block>)
    requires IsSubsequence(a, b)
    ensures IsSubsequence(FlatMap(KindOf, a), FlatMap(KindOf, b))
  {
    if a != [] {
      if Last(a) == Last(b) && IsSubsequence(Init(a), Init(b)) {
        KindsOfSubsequence(Init(a), Init(b));
        SubsequenceOfSelf(KindOf(Last(b)));
        SubsequencesAppend(FlatMap(KindOf, Init(a)), FlatMap(KindOf, Init(b)), KindOf(Last(a)), KindOf(Last(b)));
      } else {
        KindsOfSubsequence(a, Init(b));
        SubsequenceOfMore(FlatMap(KindOf, a), FlatMap(KindOf, Init(b)), KindOf(Last(b)));
      }
    }
  }

  lemma {:induction false} EachIsSubsequence<A, B, T>(f: A -> seq<T>, g: B -> seq<T>, a: seq<A>, b: seq<B>)
    requires |a| == |b| && forall i :: 0 <= i < |a| ==> IsSubsequence(f(a[i]), g(b[i]))
    ensures IsSubsequence(FlatMap(f, a), FlatMap(g, b))
  {
    if a != [] {
      assert forall i :: 0 <= i < |a| - 1 ==> Init(a)[i] == a[i] && Init(b)[i] == b[i];
      EachIsSubsequence(f, g, Init(a), Init(b));
      assert Last(a) == a[|a| - 1] && Last(b) == b[|a| - 1];
      SubsequencesAppend(FlatMap(f, Init(a)), FlatMap(g, Init(b)), f(Last(a)), g(Last(b)));
    }
  }

  lemma {:induction false} AllAreSaid(blocks: seq<Block>)
    requires forall i :: 0 <= i < |blocks| ==> blocks[i].kind.Text? || blocks[i].kind.Opaque?
    ensures SaidIn(blocks) == blocks
  {
    if blocks != [] {
      AllAreSaid(Init(blocks));
      assert blocks[|blocks| - 1] == Last(blocks);
      InitAndLast(blocks);
    }
  }

  lemma {:induction false} KindsOfBlocks(blocks: seq<Block>, kinds: seq<Kind>)
    requires |blocks| == |kinds| && forall i :: 0 <= i < |kinds| ==> blocks[i].kind == kinds[i]
    ensures FlatMap(KindOf, blocks) == kinds
  {
    if kinds != [] {
      assert forall i :: 0 <= i < |kinds| - 1 ==> Init(blocks)[i] == blocks[i] && Init(kinds)[i] == kinds[i];
      KindsOfBlocks(Init(blocks), Init(kinds));
      InitAndLast(kinds);
    }
  }

  lemma UserPartsAreSaid(m: ChatMessage, mapped: Message)
    requires IsStored(m) && m.role.FromUser? && mapped.role.User? && UserParts(m) != []
    requires |BlocksOf(mapped.content)| == |UserParts(m)|
    requires forall i :: 0 <= i < |UserParts(m)| ==> BlocksOf(mapped.content)[i].kind == UserParts(m)[i]
    ensures SaidKindsBy(mapped) == UserParts(m)
  {
    AllAreSaid(BlocksOf(mapped.content));
    KindsOfBlocks(BlocksOf(mapped.content), UserParts(m));
  }

  lemma UserPartsAreMapped(history: seq<ChatMessage>, model: Model, mode: ToolLoadingMode, i: nat)
    requires AllStored(history) && i < |Conversation(history)|
    ensures |Cleaned(history, model, mode)| == |Conversation(history)|
    ensures IsSubsequence(UserParts(Conversation(history)[i]), SaidKindsBy(Cleaned(history, model, mode)[i]))
  {
    var m := Conversation(history)[i];
    CleanedIs(history, model, mode, i);
    if UserParts(m) != [] {
      ConversationIsStored(history);
      TaggingKeepsKinds(Clean(m, model, mode));
      UserPartsAreSaid(m, Cleaned(history, model, mode)[i]);
      SubsequenceOfSelf(UserParts(m));
    }
  }

  /** What the mapped messages say of each message, the request says of the history. */
  lemma WhatIsMappedIsSent(f: ChatMessage -> seq<Kind>, stringify: ToolReferences.Stringify, history: seq<ChatMessage>, model: Model, mode: ToolLoadingMode)
    requires forall m: ChatMessage | m.role.FromElsewhere? || m.role.FromSystem? :: f(m) == []
    requires var kept, cleaned := Conversation(history), Cleaned(history, model, mode);
      |kept| == |cleaned| && forall i :: 0 <= i < |kept| ==> IsSubsequence(f(kept[i]), SaidKindsBy(cleaned[i]))
    ensures IsSubsequence(FlatMap(f, history), SaidKinds(Prepared(stringify, history, model, mode)))
  {
    var cleaned, sent := Cleaned(history, model, mode), Prepared(stringify, history, model, mode);
    EachIsSubsequence(f, SaidKindsBy, Conversation(history), cleaned);
    ConversationGathers(f, history);
    KindsBySaid(cleaned);
    NothingSaidIsLost(stringify, cleaned, model);
    KindsOfSubsequence(Said(cleaned), Said(sent));
    SubsequenceTransitive(FlatMap(f, history), SaidKinds(cleaned), SaidKinds(sent));
  }

  /** Whatever the user said or attached is in the request's user turns, in order, each part a block of its own. */
  lemma AllUserPartsAreSent(stringify: ToolReferences.Stringify, history: seq<ChatMessage>, model: Model, mode: ToolLoadingMode)
    requires AllStored(history)
    ensures IsSubsequence(FlatMap(UserParts, history), SaidKinds(Prepared(stringify, history, model, mode)))
  {
    var kept, cleaned := Conversation(history), Cleaned(history, model, mode);
    forall i | 0 <= i < |kept| ensures IsSubsequence(UserParts(kept[i]), SaidKindsBy(cleaned[i])) {
      UserPartsAreMapped(history, model, mode, i);
    }
    WhatIsMappedIsSent(UserParts, stringify, history, model, mode);
  }

  function UserText(m: ChatMessage): seq<Kind> {
    if m.role.FromUser? && m.content != "" then [Text(m.content)] else []
  }

  lemma LastIsSaid(blocks: seq<Block>, text: string)
    requires blocks != [] && Last(blocks).kind == Text(text)
    ensures IsSubsequence([Text(text)], FlatMap(KindOf, SaidIn(blocks)))
  {
    var said := SaidIn(Init(blocks));
    assert SaidOf(Last(blocks)) == [Last(blocks)];
    FlatMapAppends(KindOf, said, [Last(blocks)]);
    FlatMapOne(KindOf, Last(blocks));
    assert Init([Text(text)]) == [];
    assert Last(FlatMap(KindOf, said) + [Text(text)]) == Text(text);
  }

  lemma UserTextIsMapped(history: seq<ChatMessage>, model: Model, mode: ToolLoadingMode, i: nat)
    requires i < |Conversation(history)|
    ensures |Cleaned(history, model, mode)| == |Conversation(history)|
    ensures IsSubsequence(UserText(Conversation(history)[i]), SaidKindsBy(Cleaned(history, model, mode)[i]))
  {
    var m := Conversation(history)[i];
    CleanedIs(history, model, mode, i);
    if UserText(m) != [] {
      TaggingKeepsKinds(Clean(m, model, mode));
      LastIsSaid(BlocksOf(Cleaned(history, model, mode)[i].content), m.content);
    }
  }

  lemma {:induction false} SubsequenceKeepsMembers<T>(a: seq<T>, b: seq<T>, x: T)
    requires IsSubsequence(a, b) && x in a
    ensures x in b
  {
    if Last(a) == Last(b) && IsSubsequence(Init(a), Init(b)) {
      if x != Last(a) {
        assert x in Init(a);
        SubsequenceKeepsMembers(Init(a), Init(b), x);
      }
    } else {
      SubsequenceKeepsMembers(a, Init(b), x);
    }
  }

  /** Every text a user wrote is in the request, as a block of its own. */
  lemma UserWordsAreSent(stringify: ToolReferences.Stringify, history: seq<ChatMessage>, model: Model, mode: ToolLoadingMode, i: nat)
    requires i < |history| && history[i].role.FromUser? && history[i].content != ""
    ensures Text(history[i].content) in SaidKinds(Prepared(stringify, history, model, mode))
  {
    var kept, cleaned := Conversation(history), Cleaned(history, model, mode);
    forall j | 0 <= j < |kept| ensures IsSubsequence(UserText(kept[j]), SaidKindsBy(cleaned[j])) {
      UserTextIsMapped(history, model, mode, j);
    }
    WhatIsMappedIsSent(UserText, stringify, history, model, mode);
    FlatMapHolds(UserText, history, Text(history[i].content));
    SubsequenceKeepsMembers(FlatMap(UserText, history), SaidKinds(Prepared(stringify, history, model, mode)), Text(history[i].content));
  }

  // ── The calls ─────────────────────────────────────────────────────

  function Whole(turn: seq<Kind>): seq<Kind> {
    turn
  }

  function CallsInTurns(turns: seq<Message>): seq<seq<Kind>> {
    seq(|turns|, i requires 0 <= i < |turns| => CallsBy(turns[i]))
  }

  lemma AlikeBehind<T>(f: Message -> seq<T>, g: ChatMessage -> seq<T>, mapped: seq<Message>, kept: seq<ChatMessage>, n: nat)
    requires |mapped| == |kept| && n <= |kept| && forall i :: n <= i < |kept| ==> f(mapped[i]) == g(kept[i])
    ensures FlatMap(f, mapped[n..]) == FlatMap(g, kept[n..])
  {
    MappedAlike(f, g, mapped[n..], kept[n..]);
  }

  /** Behind the leading run the mapped messages hold what the history's own do. */
  lemma RestIsMapped<T>(f: Message -> seq<T>, g: ChatMessage -> seq<T>, history: seq<ChatMessage>, model: Model, mode: ToolLoadingMode, from: nat)
    requires IsLeadingRun(history, from)
    requires forall m: ChatMessage | m.role.FromElsewhere? :: g(m) == []
    requires var kept, cleaned := Conversation(history), Cleaned(history, model, mode);
      |kept| == |cleaned| && forall i :: 0 <= i < |kept| ==> f(cleaned[i]) == g(kept[i])
    ensures var cleaned := Cleaned(history, model, mode);
      FlatMap(f, cleaned[LeadingAssistants(cleaned)..]) == FlatMap(g, history[from..])
  {
    var cleaned := Cleaned(history, model, mode);
    LeadingRunIsCut(history, model, mode, from);
    AlikeBehind(f, g, cleaned, Conversation(history), LeadingAssistants(cleaned));
    KeptGather(g, history[from..]);
  }

  lemma CallsAreMapped(history: seq<ChatMessage>, model: Model, mode: ToolLoadingMode, from: nat)
    requires AllStored(history) && IsLeadingRun(history, from)
    ensures var cleaned := Cleaned(history, model, mode);
      FlatMap(CallsBy, cleaned[LeadingAssistants(cleaned)..]) == FlatMap(StoredCalls, history[from..])
  {
    var kept, cleaned := Conversation(history), Cleaned(history, model, mode);
    forall i | 0 <= i < |kept| ensures CallsBy(cleaned[i]) == StoredCalls(kept[i]) {
      EachMessageIsMapped(history, model, mode, i);
    }
    RestIsMapped(CallsBy, StoredCalls, history, model, mode, from);
  }

  /**
   * The calls of the history behind its leading run, in order and cut into the turns
   * of the request: each turn holds all of its calls if the next turn answers it,
   * and none otherwise.
   */
  lemma CallsAreSent(stringify: ToolReferences.Stringify, history: seq<ChatMessage>, model: Model, mode: ToolLoadingMode, from: nat) returns (turns: seq<seq<Kind>>)
    requires AllStored(history) && IsLeadingRun(history, from)
    ensures FlatMap(Whole, turns) == FlatMap(StoredCalls, history[from..])
    ensures var sent := Prepared(stringify, history, model, mode);
      && |turns| <= |sent|
      && (forall i :: 0 <= i < |turns| ==> CallsBy(sent[i]) == if IsAnswered(sent, i) then turns[i] else [])
      && (forall i :: |turns| <= i < |sent| ==> CallsBy(sent[i]) == [])
  {
    var cleaned := Cleaned(history, model, mode);
    var before := Turns(stringify, cleaned, model);
    turns := CallsInTurns(before);
    AnsweredCallsAreSent(stringify, cleaned, model);
    ContinuationHoldsNoCall(stringify, cleaned, model);
    CallsAreMapped(history, model, mode, from);
    MappedAlike(Whole, CallsBy, turns, before);
  }

  lemma ContinuationHoldsNoCall(stringify: ToolReferences.Stringify, cleaned: seq<Message>, model: Model)
    ensures var turns, sent := Turns(stringify, cleaned, model), Passed(stringify, cleaned, model);
      forall i :: |turns| <= i < |sent| ==> CallsBy(sent[i]) == []
  {
    var turns := Turns(stringify, cleaned, model);
    var trimmed := AllTrimmed(OrphansStripped(turns));
    assert |trimmed| == |turns|;
  }

  // ── The thinking ──────────────────────────────────────────────────

  /** The thinking a stored message brings: its blocks, or those of an older message with a signature; none beside attachments. */
  function StoredThoughts(m: ChatMessage): seq<Kind> {
    if !m.role.FromAssistant? || (m.toolCalls == [] && m.media != []) then []
    else if m.thinkingBlocks != [] then KindsOf(m.thinkingBlocks)
    else if |m.thinking| > 0 && |m.thinkingSignature| > 0 then [Thinking(m.thinking, m.thinkingSignature)]
    else []
  }

  function ThoughtKind(kind: Kind): seq<Kind> {
    if IsThinking(kind) then [kind] else []
  }

  lemma {:induction false} ThoughtsCounted(kinds: seq<Kind>, x: Kind)
    ensures multiset(FlatMap(ThoughtKind, kinds))[x] == if IsThinking(x) then multiset(kinds)[x] else 0
  {
    if kinds != [] {
      ThoughtsCounted(Init(kinds), x);
      InitAndLast(kinds);
    }
  }

  /** Among `kinds`, which are `thoughts` and `others` in some order, the thinking is `thoughts`. */
  lemma ThoughtsAmong(kinds: seq<Kind>, thoughts: seq<Kind>, others: seq<Kind>)
    requires multiset(kinds) == multiset(thoughts) + multiset(others)
    requires forall i :: 0 <= i < |thoughts| ==> IsThinking(thoughts[i])
    requires forall i :: 0 <= i < |others| ==> !IsThinking(others[i])
    ensures multiset(FlatMap(ThoughtOf, AsBlocks(kinds))) == multiset(thoughts)
  {
    BlocksGatherLikeKinds(ThoughtOf, ThoughtKind, AsBlocks(kinds), kinds);
    forall x ensures multiset(FlatMap(ThoughtKind, kinds))[x] == multiset(thoughts)[x] {
      ThoughtsCounted(kinds, x);
      assert x in multiset(thoughts) ==> x in thoughts;
      assert x in multiset(others) ==> x in others;
    }
  }

  lemma {:induction false} KindsAreThinking(stored: seq<ThinkingLayout.StoredThinking>)
    requires forall i :: 0 <= i < |stored| ==> IsThinking(stored[i].kind)
    ensures forall i :: 0 <= i < |KindsOf(stored)| ==> IsThinking(KindsOf(stored)[i])
  {
    if stored != [] {
      KindsAreThinking(Init(stored));
    }
  }

  lemma LaidOutThoughts(stored: seq<ThinkingLayout.StoredThinking>, texts: seq<Kind>, calls: seq<ThinkingLayout.ToolCall>)
    requires forall i :: 0 <= i < |stored| ==> IsThinking(stored[i].kind)
    requires forall i :: 0 <= i < |texts| ==> texts[i].Text?
    requires Distinct(ThinkingLayout.CallIds(calls))
    ensures multiset(FlatMap(ThoughtOf, AsBlocks(ThinkingLayout.Layout(stored, texts, calls)))) == multiset(KindsOf(stored))
  {
    LayoutIsAPermutation(stored, texts, calls);
    KindsAreThinking(stored);
    ToolUsesAreCalls(calls);
    ThoughtsAmong(ThinkingLayout.Layout(stored, texts, calls), KindsOf(stored), texts + ThinkingLayout.ToolUses(calls));
  }

  lemma NoThoughtInText(text: string)
    ensures FlatMap(ThoughtOf, [Block(Text(text))]) == []
  {
    FlatMapOne(ThoughtOf, Block(Text(text)));
  }

  lemma LegacyThoughts(m: ChatMessage, others: seq<Kind>)
    requires forall i :: 0 <= i < |others| ==> !IsThinking(others[i])
    ensures multiset(FlatMap(ThoughtOf, AsBlocks(LegacyThinking(m) + others))) == multiset(LegacyThinking(m))
  {
    ThoughtsAmong(LegacyThinking(m) + others, LegacyThinking(m), others);
  }

  lemma NoThoughtInMedia(m: ChatMessage, others: seq<Kind>)
    requires forall i :: 0 <= i < |others| ==> !IsThinking(others[i])
    ensures FlatMap(ThoughtOf, AsBlocks(others)) == []
  {
    BlocksGatherLikeKinds(ThoughtOf, ThoughtKind, AsBlocks(others), others);
    NoneGathered(ThoughtKind, others);
  }

  lemma CallingTurnThinks(m: ChatMessage)
    requires IsStored(m) && m.toolCalls != [] && Distinct(ThinkingLayout.CallIds(m.toolCalls))
    ensures multiset(ThoughtBy(CleanAssistant(m))) == multiset(if m.thinkingBlocks != [] then KindsOf(m.thinkingBlocks) else LegacyThinking(m))
  {
    if m.thinkingBlocks != [] {
      LaidOutThoughts(m.thinkingBlocks, TextIfAny(m.content), m.toolCalls);
    } else {
      ToolUsesAreCalls(m.toolCalls);
      LegacyThoughts(m, TextIfAny(m.content) + ThinkingLayout.ToolUses(m.toolCalls));
      Regroup(LegacyThinking(m), TextIfAny(m.content), ThinkingLayout.ToolUses(m.toolCalls));
    }
  }

  lemma SpokenTurnThinks(m: ChatMessage)
    requires IsStored(m) && m.toolCalls == [] && m.media == []
    ensures multiset(ThoughtBy(CleanAssistant(m))) == multiset(if m.thinkingBlocks != [] then KindsOf(m.thinkingBlocks) else LegacyThinking(m))
  {
    if CleanAssistant(m).content.PlainContent? {
      NoThoughtInText(CleanAssistant(m).content.text);
    } else if m.thinkingBlocks != [] {
      LaidOutThoughts(m.thinkingBlocks, [Text(OrBlank(m.content))], []);
    } else {
      LegacyThoughts(m, [Text(OrBlank(m.content))]);
    }
  }

  lemma AssistantKeepsItsThinking(m: ChatMessage)
    requires IsStored(m) && m.role.FromAssistant? && Distinct(ThinkingLayout.CallIds(m.toolCalls))
    ensures multiset(ThoughtBy(CleanAssistant(m))) == multiset(StoredThoughts(m))
  {
    if m.toolCalls != [] {
      CallingTurnThinks(m);
    } else if m.media != [] {
      NoThoughtInMedia(m, m.media + (if m.content != "" then [Text(m.content)] else []));
    } else {
      SpokenTurnThinks(m);
    }
  }

  ghost predicate CallIdsAreDistinct(history: seq<ChatMessage>) {
    forall i :: 0 <= i < |history| ==> Distinct(ThinkingLayout.CallIds(history[i].toolCalls))
  }

  lemma {:induction false} KeptIdsAreDistinct(history: seq<ChatMessage>)
    requires CallIdsAreDistinct(history)
    ensures CallIdsAreDistinct(KeptOnly(history))
  {
    if history != [] {
      assert forall i :: 0 <= i < |history| - 1 ==> Init(history)[i] == history[i];
      KeptIdsAreDistinct(Init(history));
    }
  }

  lemma CleanKeepsThinking(m: ChatMessage, model: Model, mode: ToolLoadingMode)
    requires IsStored(m) && !m.role.FromElsewhere? && Distinct(ThinkingLayout.CallIds(m.toolCalls))
    ensures multiset(ThoughtBy(Clean(m, model, mode))) == multiset(StoredThoughts(m))
  {
    match m.role
    case FromTool =>
    case FromSystem =>
    case FromUser =>
    case FromAssistant => AssistantKeepsItsThinking(m);
  }

  lemma TaggingKeepsThinking(m: Message)
    ensures ThoughtBy(CacheBreakpoints.TaggedBoundary(m)) == ThoughtBy(m)
  {
    TaggingKeepsKinds(m);
    GatheringAlike(ThoughtOf, BlocksOf(CacheBreakpoints.TaggedBoundary(m).content), BlocksOf(m.content));
  }

  lemma ThinkingIsMapped(history: seq<ChatMessage>, model: Model, mode: ToolLoadingMode, i: nat)
    requires AllStored(history) && i < |Conversation(history)| && Distinct(ThinkingLayout.CallIds(Conversation(history)[i].toolCalls))
    ensures |Cleaned(history, model, mode)| == |Conversation(history)|
    ensures multiset(ThoughtBy(Cleaned(history, model, mode)[i])) == multiset(StoredThoughts(Conversation(history)[i]))
  {
    var m := Conversation(history)[i];
    ConversationIsStored(history);
    CleanedIs(history, model, mode, i);
    CleanKeepsThinking(m, model, mode);
    TaggingKeepsThinking(Clean(m, model, mode));
  }

  /** Message by message, the same thinking. */
  ghost predicate ThinkAlike(kept: seq<ChatMessage>, mapped: seq<Message>) {
    |kept| == |mapped| && forall i :: 0 <= i < |kept| ==> multiset(ThoughtBy(mapped[i])) == multiset(StoredThoughts(kept[i]))
  }

  /** For each message, the thinking stored with it, in some order. */
  ghost predicate AreShares(history: seq<ChatMessage>, shares: seq<seq<Kind>>) {
    |shares| == |history| && forall i :: 0 <= i < |history| ==> multiset(shares[i]) == multiset(StoredThoughts(history[i]))
  }

  lemma AlikeUpToLast(kept: seq<ChatMessage>, last: ChatMessage, mapped: seq<Message>)
    requires ThinkAlike(kept + [last], mapped)
    ensures mapped != [] && ThinkAlike(kept, Init(mapped)) && multiset(ThoughtBy(Last(mapped))) == multiset(StoredThoughts(last))
  {
    assert (kept + [last])[|kept|] == last && forall i :: 0 <= i < |kept| ==> (kept + [last])[i] == kept[i];
    assert Last(mapped) == mapped[|kept|];
  }

  lemma OneMoreShare(front: seq<ChatMessage>, last: ChatMessage, shares: seq<seq<Kind>>, share: seq<Kind>)
    requires AreShares(front, shares) && multiset(share) == multiset(StoredThoughts(last))
    ensures AreShares(front + [last], shares + [share])
    ensures FlatMap(Whole, shares + [share]) == FlatMap(Whole, shares) + share
  {
    assert Init(shares + [share]) == shares;
  }

  lemma {:induction false} SharesOf(history: seq<ChatMessage>, mapped: seq<Message>) returns (shares: seq<seq<Kind>>)
    requires ThinkAlike(KeptOnly(history), mapped)
    ensures AreShares(history, shares) && FlatMap(Whole, shares) == FlatMap(ThoughtBy, mapped)
  {
    if history == [] {
      shares := [];
    } else {
      var front, last := Init(history), Last(history);
      var kept := KeptOnly(front);
      InitAndLast(history);
      if last.role.FromElsewhere? {
        NothingMore(kept);
        shares := SharesOf(front, mapped);
        OneMoreShare(front, last, shares, []);
        NothingMore(FlatMap(Whole, shares));
        shares := shares + [[]];
      } else {
        AlikeUpToLast(kept, last, mapped);
        shares := SharesOf(front, Init(mapped));
        OneMoreShare(front, last, shares, ThoughtBy(Last(mapped)));
        shares := shares + [ThoughtBy(Last(mapped))];
      }
    }
  }

  lemma ThinkAlikeBehind(kept: seq<ChatMessage>, mapped: seq<Message>, n: nat)
    requires |kept| == |mapped| && n <= |kept|
    requires forall i :: n <= i < |kept| ==> multiset(ThoughtBy(mapped[i])) == multiset(StoredThoughts(kept[i]))
    ensures ThinkAlike(kept[n..], mapped[n..])
  {
  }

  lemma DistinctBehind(kept: seq<ChatMessage>, n: nat)
    requires n <= |kept| && CallIdsAreDistinct(kept[n..])
    ensures forall i :: n <= i < |kept| ==> Distinct(ThinkingLayout.CallIds(kept[i].toolCalls))
  {
    forall i | n <= i < |kept| ensures Distinct(ThinkingLayout.CallIds(kept[i].toolCalls)) {
      assert kept[n..][i - n] == kept[i];
    }
  }

  lemma RestThinksAlike(history: seq<ChatMessage>, model: Model, mode: ToolLoadingMode, from: nat)
    requires AllStored(history) && IsLeadingRun(history, from) && CallIdsAreDistinct(history[from..])
    ensures var cleaned := Cleaned(history, model, mode);
      ThinkAlike(KeptOnly(history[from..]), cleaned[LeadingAssistants(cleaned)..])
  {
    var kept, cleaned := Conversation(history), Cleaned(history, model, mode);
    var n := LeadingAssistants(cleaned);
    LeadingRunIsCut(history, model, mode, from);
    KeptIdsAreDistinct(history[from..]);
    DistinctBehind(kept, n);
    forall i | n <= i < |kept| ensures multiset(ThoughtBy(cleaned[i])) == multiset(StoredThoughts(kept[i])) {
      ThinkingIsMapped(history, model, mode, i);
    }
    ThinkAlikeBehind(kept, cleaned, n);
  }

  /**
   * The thinking of the request, byte for byte, cut message by message: of each
   * message behind the leading run all that is stored, each block once; nothing else.
   */
  lemma ThinkingIsSent(stringify: ToolReferences.Stringify, history: seq<ChatMessage>, model: Model, mode: ToolLoadingMode, from: nat) returns (shares: seq<seq<Kind>>)
    requires AllStored(history) && IsLeadingRun(history, from) && CallIdsAreDistinct(history[from..])
    ensures FlatMap(Whole, shares) == FlatMap(ThoughtBy, Prepared(stringify, history, model, mode))
    ensures AreShares(history[from..], shares)
  {
    var cleaned := Cleaned(history, model, mode);
    ThinkingIsReplayed(stringify, cleaned, model);
    RestThinksAlike(history, model, mode, from);
    shares := SharesOf(history[from..], cleaned[LeadingAssistants(cleaned)..]);
  }

  // ── The results ───────────────────────────────────────────────────

  /** The ids of the results a turn holds; no assistant turn holds any. */
  function IdsBy(m: Message): seq<string> {
    if m.role.Assistant? then [] else ResultIds(BlocksOf(m.content))
  }

  function AnsweredIds(m: ChatMessage): seq<string> {
    if m.role.FromTool? then [m.resultId] else []
  }

  ghost predicate SameIds(a: seq<string>, b: seq<string>) {
    forall id :: id in a <==> id in b
  }

  lemma {:induction false} EachSameIds(a: seq<Message>, b: seq<Message>)
    requires |a| == |b| && forall i :: 0 <= i < |a| ==> SameIds(IdsBy(a[i]), IdsBy(b[i]))
    ensures SameIds(FlatMap(IdsBy, a), FlatMap(IdsBy, b))
  {
    if a != [] {
      assert forall i :: 0 <= i < |a| - 1 ==> Init(a)[i] == a[i] && Init(b)[i] == b[i];
      EachSameIds(Init(a), Init(b));
      assert Last(a) == a[|a| - 1] && Last(b) == b[|a| - 1];
    }
  }

  lemma NoIdInText(text: string)
    ensures ResultIds([Block(Text(text))]) == []
  {
    ResultIdsOfOne(Block(Text(text)));
  }

  lemma JoiningHoldsBothIds(a: Message, b: Message)
    requires a.role == b.role
    ensures IdsBy(Joined(a, b)) == IdsBy(a) + IdsBy(b)
  {
    if Joined(a, b).content.PlainContent? {
      NoIdInText(a.content.text);
      NoIdInText(b.content.text);
      NoIdInText(Joined(a, b).content.text);
    } else {
      ResultIdsAppend(BlocksOf(a.content), BlocksOf(b.content));
    }
  }

  lemma MergingKeepsIds(ms: seq<Message>)
    ensures FlatMap(IdsBy, Merge(ms)) == FlatMap(IdsBy, ms)
  {
    forall a: Message, b: Message | a.role == b.role ensures IdsBy(Joined(a, b)) == IdsBy(a) + IdsBy(b) {
      JoiningHoldsBothIds(a, b);
    }
    MergingGathers(IdsBy, ms);
  }

  lemma {:induction false} ToolChangesAreNoResults(blocks: seq<Block>)
    ensures ResultIds(WithoutToolChanges(blocks)) == ResultIds(blocks)
  {
    if blocks != [] {
      var last := Last(blocks);
      ToolChangesAreNoResults(Init(blocks));
      InitAndLast(blocks);
      ResultIdsAppend(Init(blocks), [last]);
      ResultIdsOfOne(last);
      ResultIdsAppend(WithoutToolChanges(Init(blocks)), [last]);
      NothingMore(WithoutToolChanges(Init(blocks)));
      NothingMore(ResultIds(Init(blocks)));
    }
  }

  lemma DemotingKeepsIds(m: Message)
    requires m.role.System?
    ensures IdsBy(Demoted(m)) == IdsBy(m)
  {
    if m.content.BlockContent? {
      ToolChangesAreNoResults(m.content.blocks);
      NoIdInText(" ");
    }
  }

  lemma PlacingKeepsIds(cleaned: seq<Message>, model: Model)
    ensures FlatMap(IdsBy, Placed(cleaned, model)) == FlatMap(IdsBy, cleaned)
  {
    var merged := Merge(cleaned);
    var demoted := MisplacedDemoted(merged);
    MergingKeepsIds(cleaned);
    MergingKeepsIds(demoted);
    forall i | 0 <= i < |merged| ensures IdsBy(demoted[i]) == IdsBy(merged[i]) {
      if IsMisplacedAt(merged, i) { DemotingKeepsIds(merged[i]); }
    }
    GatheringAlike(IdsBy, demoted, merged);
  }

  lemma UserPassKeepsIds(stringify: ToolReferences.Stringify, m: Message)
    ensures SameIds(IdsBy(m), IdsBy(UserPass(stringify, m)))
  {
    if m.role.User? && m.content.BlockContent? {
      var unique := Deduplicated(m.content.blocks);
      DeduplicatingIsDistinct(m.content.blocks);
      OthersKeepResultIds(unique);
      AttachingKeepsResultIds(stringify, ToolReferences.Others(unique), ToolReferences.Attachments(unique));
    }
  }

  lemma UserPassesKeepIds(stringify: ToolReferences.Stringify, ms: seq<Message>)
    ensures SameIds(FlatMap(IdsBy, ms), FlatMap(IdsBy, UserPasses(stringify, ms)))
  {
    forall i | 0 <= i < |ms| ensures SameIds(IdsBy(ms[i]), IdsBy(UserPasses(stringify, ms)[i])) {
      UserPassKeepsIds(stringify, ms[i]);
    }
    EachSameIds(ms, UserPasses(stringify, ms));
  }

  lemma ShiftingKeepsIds(ms: seq<Message>)
    ensures FlatMap(IdsBy, Shifted(ms)) == FlatMap(IdsBy, ms)
  {
    if ms != [] && ms[0].role.Assistant? {
      FirstAndRest(IdsBy, ms);
    }
  }

  lemma LastPassesKeepIds(turns: seq<Message>, model: Model)
    ensures FlatMap(IdsBy, Capped(AllTrimmed(OrphansStripped(turns)), model)) == FlatMap(IdsBy, turns)
  {
    var out, last := AllTrimmed(OrphansStripped(turns)), Message(User, PlainContent(CONTINUATION));
    forall i | 0 <= i < |turns| ensures IdsBy(out[i]) == IdsBy(turns[i]) {
      assert turns[i].role.Assistant? || out[i] == turns[i];
    }
    GatheringAlike(IdsBy, out, turns);
    GatheredSnoc(IdsBy, out, last);
    NoIdInText(CONTINUATION);
  }

  lemma PassingKeepsIds(stringify: ToolReferences.Stringify, cleaned: seq<Message>, model: Model)
    ensures SameIds(FlatMap(IdsBy, cleaned), FlatMap(IdsBy, Passed(stringify, cleaned, model)))
  {
    var placed := Placed(cleaned, model);
    PlacingKeepsIds(cleaned, model);
    UserPassesKeepIds(stringify, placed);
    ShiftingKeepsIds(UserPasses(stringify, placed));
    LastPassesKeepIds(Turns(stringify, cleaned, model), model);
  }

  lemma {:induction false} NoIdGathered(kinds: seq<Kind>)
    requires forall i :: 0 <= i < |kinds| ==> !kinds[i].ToolResult?
    ensures ResultIds(AsBlocks(kinds)) == []
  {
    if kinds != [] {
      var blocks := AsBlocks(kinds);
      NoIdGathered(Init(kinds));
      InitAndLast(blocks);
      assert Init(blocks) == AsBlocks(Init(kinds));
      ResultIdsAppend(Init(blocks), [Last(blocks)]);
      ResultIdsOfOne(Last(blocks));
    }
  }

  lemma SystemHoldsNoId(m: ChatMessage, model: Model, mode: ToolLoadingMode)
    ensures IdsBy(CleanSystem(m, model, mode)) == []
  {
    var cleaned := CleanSystem(m, model, mode);
    if cleaned.content.PlainContent? {
      NoIdInText(m.content);
    } else if model.keepsSystemRole {
      NoIdGathered(TextIfAny(m.content) + ToolChanges(m.activation.value));
    } else {
      NoIdGathered([Text(m.content), ReferencePlaceholder(m.activation.value.added, m.activation.value.sourceToolCallId)]);
    }
  }

  lemma CleanHoldsItsId(m: ChatMessage, model: Model, mode: ToolLoadingMode)
    requires IsStored(m) && !m.role.FromElsewhere?
    ensures IdsBy(Clean(m, model, mode)) == AnsweredIds(m)
  {
    match m.role
    case FromTool =>
      var result := ToolResult(m.resultId, PlainResult(m.content));
      assert AsBlocks([result]) == [Block(result)];
      ResultIdsOfOne(Block(result));
    case FromSystem => SystemHoldsNoId(m, model, mode);
    case FromAssistant =>
    case FromUser =>
      NoIdInText(OrSpace(m.content));
      NoIdGathered(m.media + (if m.content != "" then [Text(m.content)] else []));
  }

  lemma {:induction false} IdsAlike(a: seq<Block>, b: seq<Block>)
    requires |a| == |b| && forall i :: 0 <= i < |a| ==> a[i].kind == b[i].kind
    ensures ResultIds(a) == ResultIds(b)
  {
    if a != [] {
      assert forall i :: 0 <= i < |a| - 1 ==> Init(a)[i] == a[i] && Init(b)[i] == b[i];
      IdsAlike(Init(a), Init(b));
      InitAndLast(a);
      InitAndLast(b);
      ResultIdsAppend(Init(a), [Last(a)]);
      ResultIdsAppend(Init(b), [Last(b)]);
      ResultIdsOfOne(Last(a));
      ResultIdsOfOne(Last(b));
    }
  }

  lemma IdsAreMapped(history: seq<ChatMessage>, model: Model, mode: ToolLoadingMode)
    requires AllStored(history)
    ensures FlatMap(IdsBy, Cleaned(history, model, mode)) == FlatMap(AnsweredIds, history)
  {
    var kept, cleaned := Conversation(history), Cleaned(history, model, mode);
    ConversationIsStored(history);
    forall i | 0 <= i < |kept| ensures IdsBy(cleaned[i]) == AnsweredIds(kept[i]) {
      var clean := Clean(kept[i], model, mode);
      CleanedIs(history, model, mode, i);
      CleanHoldsItsId(kept[i], model, mode);
      TaggingKeepsKinds(clean);
      IdsAlike(BlocksOf(CacheBreakpoints.TaggedBoundary(clean).content), BlocksOf(clean.content));
    }
    MappedAlike(IdsBy, AnsweredIds, cleaned, kept);
    ConversationGathers(AnsweredIds, history);
  }

  lemma AnsweredIdsAreOfTools(history: seq<ChatMessage>, id: string)
    ensures id in FlatMap(AnsweredIds, history) <==> exists i :: 0 <= i < |history| && history[i].role.FromTool? && history[i].resultId == id
  {
    FlatMapHolds(AnsweredIds, history, id);
    assert forall i :: 0 <= i < |history| ==> (id in AnsweredIds(history[i]) <==> history[i].role.FromTool? && history[i].resultId == id);
  }

  /** The request answers exactly the calls the history answers. */
  lemma EveryResultIsSent(stringify: ToolReferences.Stringify, history: seq<ChatMessage>, model: Model, mode: ToolLoadingMode, id: string)
    requires AllStored(history)
    ensures id in FlatMap(IdsBy, Prepared(stringify, history, model, mode))
      <==> exists i :: 0 <= i < |history| && history[i].role.FromTool? && history[i].resultId == id
  {
    IdsAreMapped(history, model, mode);
    PassingKeepsIds(stringify, Cleaned(history, model, mode), model);
    AnsweredIdsAreOfTools(history, id);
  }
}
