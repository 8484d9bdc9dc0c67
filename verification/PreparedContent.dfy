/** What a prepared request still holds of the history: the user's words, the thinking, the answered calls. */
module PreparedContent {
  import opened Prelude
  import opened AnthropicBlocks
  import opened MessageMerge
  import opened PrepareMessages
  import ThinkingLayout
  import ToolReferences

  // ── Gathering something from every message ────────────────────────

  lemma GatheredSnoc<T>(f: Message -> seq<T>, ms: seq<Message>, m: Message)
    ensures FlatMap(f, ms + [m]) == FlatMap(f, ms) + f(m)
  {
    assert Init(ms + [m]) == ms;
  }

  /** Joining two messages of one role keeps what both hold. */
  ghost predicate JoinsAdd<T>(f: Message -> seq<T>) {
    forall a: Message, b: Message {:trigger Joined(a, b)} | a.role == b.role :: f(Joined(a, b)) == f(a) + f(b)
  }

  lemma MergeIntoGathers<T>(f: Message -> seq<T>, merged: seq<Message>, current: Message)
    requires JoinsAdd(f)
    ensures FlatMap(f, MergeInto(merged, current)) == FlatMap(f, merged) + f(current)
  {
    if merged != [] && Last(merged).role == current.role {
      var front, previous := Init(merged), Last(merged);
      InitAndLast(merged);
      GatheredSnoc(f, front, Joined(previous, current));
      GatheredSnoc(f, front, previous);
      assert FlatMap(f, front) + (f(previous) + f(current)) == FlatMap(f, front) + f(previous) + f(current);
    } else {
      GatheredSnoc(f, merged, current);
    }
  }

  lemma {:induction false} MergingGathers<T>(f: Message -> seq<T>, ms: seq<Message>)
    requires JoinsAdd(f)
    ensures FlatMap(f, Merge(ms)) == FlatMap(f, ms)
  {
    if ms != [] {
      MergingGathers(f, Init(ms));
      MergeIntoGathers(f, Merge(Init(ms)), Last(ms));
    }
  }

  lemma {:induction false} GatheringAlike<A, T>(f: A -> seq<T>, a: seq<A>, b: seq<A>)
    requires |a| == |b| && forall i :: 0 <= i < |a| ==> f(a[i]) == f(b[i])
    ensures FlatMap(f, a) == FlatMap(f, b)
  {
    if a != [] {
      assert forall i :: 0 <= i < |a| - 1 ==> Init(a)[i] == a[i] && Init(b)[i] == b[i];
      GatheringAlike(f, Init(a), Init(b));
    }
  }

  // ── Nothing the user said is lost ─────────────────────────────────

  function SaidOf(b: Block): seq<Block> {
    if b.kind.ToolResult? || b.kind.ReferencePlaceholder? then [] else [b]
  }

  /** User blocks other than tool results and placeholders. */
  function SaidIn(blocks: seq<Block>): seq<Block> {
    FlatMap(SaidOf, blocks)
  }

  function SaidBy(m: Message): seq<Block> {
    if m.role.User? then SaidIn(BlocksOf(m.content)) else []
  }

  function Said(ms: seq<Message>): seq<Block> {
    FlatMap(SaidBy, ms)
  }

  lemma SaidInAppends(a: seq<Block>, b: seq<Block>)
    ensures SaidIn(a + b) == SaidIn(a) + SaidIn(b)
  {
    FlatMapAppends(SaidOf, a, b);
  }

  lemma SaidInOne(b: Block)
    ensures SaidIn([b]) == SaidOf(b)
  {
    FlatMapOne(SaidOf, b);
  }

  lemma JoiningSaysBoth(a: Message, b: Message)
    requires a.role == b.role
    ensures SaidBy(Joined(a, b)) == SaidBy(a) + SaidBy(b)
  {
    if b.role.User? {
      SaidInAppends(BlocksOf(a.content), BlocksOf(b.content));
    }
  }

  lemma MergingKeepsSaid(ms: seq<Message>)
    ensures Said(Merge(ms)) == Said(ms)
  {
    forall a: Message, b: Message | a.role == b.role ensures SaidBy(Joined(a, b)) == SaidBy(a) + SaidBy(b) {
      JoiningSaysBoth(a, b);
    }
    MergingGathers(SaidBy, ms);
  }

  /** Turn by turn, what was said in `a` is said in `b`. */
  ghost predicate SaysAtLeast(a: seq<Message>, b: seq<Message>) {
    |a| == |b| && forall i :: 0 <= i < |a| ==> IsSubsequence(SaidBy(a[i]), SaidBy(b[i]))
  }

  lemma SayingOneMore(a: seq<Message>, b: seq<Message>, x: Message, y: Message)
    requires IsSubsequence(Said(a), Said(b)) && IsSubsequence(SaidBy(x), SaidBy(y))
    ensures IsSubsequence(Said(a + [x]), Said(b + [y]))
  {
    var saidA, saidB, saidX, saidY := Said(a), Said(b), SaidBy(x), SaidBy(y);
    SubsequencesAppend(saidA, saidB, saidX, saidY);
    GatheredSnoc(SaidBy, a, x);
    GatheredSnoc(SaidBy, b, y);
  }

  lemma {:induction false} SayingAtLeast(a: seq<Message>, b: seq<Message>)
    requires SaysAtLeast(a, b)
    ensures IsSubsequence(Said(a), Said(b))
  {
    if a != [] {
      var front, other, x, y := Init(a), Init(b), Last(a), Last(b);
      SayingAtLeastInit(a, b);
      SayingAtLeast(front, other);
      SayingOneMore(front, other, x, y);
      InitAndLast(a);
      InitAndLast(b);
    }
  }

  lemma SayingAtLeastInit(a: seq<Message>, b: seq<Message>)
    requires SaysAtLeast(a, b) && a != []
    ensures SaysAtLeast(Init(a), Init(b)) && IsSubsequence(SaidBy(Last(a)), SaidBy(Last(b)))
  {
    assert forall i :: 0 <= i < |a| - 1 ==> Init(a)[i] == a[i] && Init(b)[i] == b[i];
  }

  lemma DemotingSaysAtLeast(ms: seq<Message>)
    ensures SaysAtLeast(ms, MisplacedDemoted(ms))
  {
    forall i | 0 <= i < |ms|
      ensures IsSubsequence(SaidBy(ms[i]), SaidBy(MisplacedDemoted(ms)[i]))
    {
      SubsequenceOfSelf(SaidBy(ms[i]));
    }
  }

  lemma {:induction false} DeduplicatingKeepsSaid(blocks: seq<Block>)
    ensures SaidIn(Deduplicated(blocks)) == SaidIn(blocks)
  {
    if blocks != [] {
      DeduplicatingKeepsSaid(Init(blocks));
      InitAndLast(blocks);
      SaidInAppends(Init(blocks), [Last(blocks)]);
      SaidInAppends(Deduplicated(Init(blocks)), [Last(blocks)]);
      SaidInOne(Last(blocks));
      assert SaidIn(Init(blocks)) + [] == SaidIn(Init(blocks));
    }
  }

  lemma {:induction false} OthersKeepSaid(blocks: seq<Block>)
    ensures SaidIn(ToolReferences.Others(blocks)) == SaidIn(blocks)
  {
    if blocks != [] {
      OthersKeepSaid(Init(blocks));
      InitAndLast(blocks);
      SaidInAppends(Init(blocks), [Last(blocks)]);
      SaidInAppends(ToolReferences.Others(Init(blocks)), [Last(blocks)]);
      SaidInOne(Last(blocks));
      assert SaidIn(Init(blocks)) + [] == SaidIn(Init(blocks));
      assert ToolReferences.Others(Init(blocks)) + [] == ToolReferences.Others(Init(blocks));
    }
  }

  lemma SplicingSaysAtLeast(a: seq<Block>, target: Block, b: seq<Block>, carrying: seq<Block>)
    requires SaidOf(target) == []
    ensures IsSubsequence(SaidIn(a + [target] + b), SaidIn(a + carrying + b))
  {
    SaidInAppends(a + [target], b);
    SaidInAppends(a, [target]);
    SaidInOne(target);
    SaidInAppends(a + carrying, b);
    SaidInAppends(a, carrying);
    var front, middle, back := SaidIn(a), SaidIn(carrying), SaidIn(b);
    SubsequenceOfSelf(front);
    SubsequenceOfSelf(back);
    SubsequenceOfMore(front, front, middle);
    SubsequencesAppend(front, front + middle, back, back);
    assert front + [] == front;
  }

  lemma AttachingOneSaysAtLeast(stringify: ToolReferences.Stringify, output: seq<Block>, attachment: ToolReferences.Attachment)
    ensures IsSubsequence(SaidIn(output), SaidIn(ToolReferences.AttachOne(stringify, output, attachment)))
  {
    var at := ToolReferences.Target(output, attachment.sourceToolCallId);
    if at >= 0 {
      ToolReferences.SettingBetween(output, at, output[at]);
      SplicingSaysAtLeast(output[..at], output[at], output[at + 1..],
                          ToolReferences.Carrying(stringify, output[at], attachment.names));
    } else {
      SubsequenceOfSelf(SaidIn(output));
    }
  }

  lemma {:induction false} AttachingSaysAtLeast(stringify: ToolReferences.Stringify, output: seq<Block>, attachments: seq<ToolReferences.Attachment>)
    ensures IsSubsequence(SaidIn(output), SaidIn(ToolReferences.AttachAll(stringify, output, attachments)))
  {
    SubsequenceOfSelf(SaidIn(output));
    if attachments != [] {
      var before := ToolReferences.AttachAll(stringify, output, Init(attachments));
      AttachingSaysAtLeast(stringify, output, Init(attachments));
      AttachingOneSaysAtLeast(stringify, before, Last(attachments));
      SubsequenceTransitive(SaidIn(output), SaidIn(before), SaidIn(ToolReferences.AttachAll(stringify, output, attachments)));
    }
  }

  lemma UserPassesSayAtLeast(stringify: ToolReferences.Stringify, ms: seq<Message>)
    ensures SaysAtLeast(ms, UserPasses(stringify, ms))
  {
    forall i | 0 <= i < |ms|
      ensures IsSubsequence(SaidBy(ms[i]), SaidBy(UserPass(stringify, ms[i])))
    {
      var m := ms[i];
      SubsequenceOfSelf(SaidBy(m));
      if m.role.User? && m.content.BlockContent? {
        var unique := Deduplicated(m.content.blocks);
        DeduplicatingKeepsSaid(m.content.blocks);
        OthersKeepSaid(unique);
        AttachingSaysAtLeast(stringify, ToolReferences.Others(unique), ToolReferences.Attachments(unique));
      }
    }
  }

  lemma ShiftingKeepsSaid(ms: seq<Message>)
    ensures Said(Shifted(ms)) == Said(ms)
  {
    if ms != [] && ms[0].role.Assistant? {
      assert ms == [ms[0]] + ms[1..];
      FlatMapAppends(SaidBy, [ms[0]], ms[1..]);
      FlatMapOne(SaidBy, ms[0]);
    }
  }

  lemma AssistantPassesSayAtLeast(ms: seq<Message>)
    ensures SaysAtLeast(ms, AllTrimmed(OrphansStripped(ms)))
  {
    forall i | 0 <= i < |ms|
      ensures SaidBy(AllTrimmed(OrphansStripped(ms))[i]) == SaidBy(ms[i])
    {
      assert ms[i].role.Assistant? || AllTrimmed(OrphansStripped(ms))[i] == ms[i];
    }
    forall i | 0 <= i < |ms|
      ensures IsSubsequence(SaidBy(ms[i]), SaidBy(ms[i]))
    {
      SubsequenceOfSelf(SaidBy(ms[i]));
    }
  }

  lemma CappingSaysAtLeast(ms: seq<Message>, model: Model)
    ensures IsSubsequence(Said(ms), Said(Capped(ms, model)))
  {
    SubsequenceOfSelf(Said(ms));
    if Capped(ms, model) != ms {
      GatheredSnoc(SaidBy, ms, Message(User, PlainContent(CONTINUATION)));
      SubsequenceOfMore(Said(ms), Said(ms), SaidBy(Message(User, PlainContent(CONTINUATION))));
    }
  }

  /** Every block the user's turns held, tool results and placeholders apart, is sent, in order. */
  lemma NothingSaidIsLost(stringify: ToolReferences.Stringify, cleaned: seq<Message>, model: Model)
    ensures IsSubsequence(Said(cleaned), Said(Passed(stringify, cleaned, model)))
  {
    var merged := Merge(cleaned);
    MergingKeepsSaid(cleaned);
    var placed := Placed(cleaned, model);
    SubsequenceOfSelf(Said(merged));
    DemotingSaysAtLeast(merged);
    SayingAtLeast(merged, MisplacedDemoted(merged));
    MergingKeepsSaid(MisplacedDemoted(merged));
    assert IsSubsequence(Said(cleaned), Said(placed));
    var users := UserPasses(stringify, placed);
    UserPassesSayAtLeast(stringify, placed);
    SayingAtLeast(placed, users);
    SubsequenceTransitive(Said(cleaned), Said(placed), Said(users));
    var shifted := Shifted(users);
    ShiftingKeepsSaid(users);
    var trimmed := AllTrimmed(OrphansStripped(shifted));
    AssistantPassesSayAtLeast(shifted);
    SayingAtLeast(shifted, trimmed);
    SubsequenceTransitive(Said(cleaned), Said(shifted), Said(trimmed));
    CappingSaysAtLeast(trimmed, model);
    SubsequenceTransitive(Said(cleaned), Said(trimmed), Said(Capped(trimmed, model)));
  }

  // ── What the assistant turns keep ─────────────────────────────────

  function ThoughtOf(b: Block): seq<Kind> {
    if IsThinking(b.kind) then [b.kind] else []
  }

  function CallOf(b: Block): seq<Kind> {
    if b.kind.ToolUse? then [b.kind] else []
  }

  /** The thinking of an assistant turn, byte for byte. */
  function ThoughtBy(m: Message): seq<Kind> {
    if m.role.Assistant? then FlatMap(ThoughtOf, BlocksOf(m.content)) else []
  }

  function CallsBy(m: Message): seq<Kind> {
    if m.role.Assistant? then FlatMap(CallOf, BlocksOf(m.content)) else []
  }

  /** `f` gathers from the blocks of assistant turns, and from nothing made of text. */
  ghost predicate FromAssistants<T>(f: Message -> seq<T>) {
    JoinsAdd(f) && forall m: Message | !m.role.Assistant? :: f(m) == []
  }

  lemma GatheringJoins(g: Block -> seq<Kind>, a: Message, b: Message)
    requires a.role == b.role && forall block: Block | block.kind.Text? :: g(block) == []
    ensures FlatMap(g, BlocksOf(Joined(a, b).content)) == FlatMap(g, BlocksOf(a.content)) + FlatMap(g, BlocksOf(b.content))
  {
    if Joined(a, b).content.PlainContent? {
      FlatMapOne(g, Block(Text(Joined(a, b).content.text)));
      FlatMapOne(g, Block(Text(a.content.text)));
      FlatMapOne(g, Block(Text(b.content.text)));
    } else {
      FlatMapAppends(g, BlocksOf(a.content), BlocksOf(b.content));
    }
  }

  lemma ThoughtsAndCallsAreFromAssistants()
    ensures FromAssistants(ThoughtBy) && FromAssistants(CallsBy)
  {
    forall a: Message, b: Message | a.role == b.role
      ensures ThoughtBy(Joined(a, b)) == ThoughtBy(a) + ThoughtBy(b) && CallsBy(Joined(a, b)) == CallsBy(a) + CallsBy(b)
    {
      GatheringJoins(ThoughtOf, a, b);
      GatheringJoins(CallOf, a, b);
    }
  }

  /** The assistant messages a conversation starts with: no request can. */
  function LeadingAssistants(ms: seq<Message>): (n: nat)
    ensures n <= |ms| && (forall i :: 0 <= i < n ==> ms[i].role.Assistant?)
    ensures n < |ms| ==> !ms[n].role.Assistant?
  {
    if ms == [] || !ms[0].role.Assistant? then 0 else 1 + LeadingAssistants(ms[1..])
  }

  /** The turns as the last three passes get them. */
  function Turns(stringify: ToolReferences.Stringify, cleaned: seq<Message>, model: Model): seq<Message> {
    Shifted(UserPasses(stringify, Placed(cleaned, model)))
  }

  lemma MergeIntoStartsAlike(merged: seq<Message>, current: Message)
    requires merged != []
    ensures MergeInto(merged, current) != [] && MergeInto(merged, current)[0].role == merged[0].role
  {
  }

  lemma {:induction false} MergedStartsAlike(ms: seq<Message>)
    requires ms != []
    ensures Merge(ms) != [] && Merge(ms)[0].role == ms[0].role
  {
    if |ms| == 1 {
      assert Init(ms) == [];
    } else {
      MergedStartsAlike(Init(ms));
      MergeIntoStartsAlike(Merge(Init(ms)), Last(ms));
    }
  }

  /** An assistant turn at the start stays as it is, whatever is demoted behind it. */
  lemma EnforcingKeepsTheStart(ms: seq<Message>)
    requires Alternates(ms) && ms != []
    ensures var placed := SystemsEnforced(ms);
      placed != [] && (placed[0].role.Assistant? <==> ms[0].role.Assistant?) && (ms[0].role.Assistant? ==> placed[0] == ms[0])
  {
    var demoted := MisplacedDemoted(ms);
    MergedStartsAlike(demoted);
    if ms[0].role.Assistant? && |ms| > 1 {
      assert demoted[0] == ms[0] && !demoted[1].role.Assistant?;
      MergeSplitsAtRoleChange([demoted[0]], demoted[1..]);
      assert [demoted[0]] + demoted[1..] == demoted;
      MergeOne(demoted[0]);
    } else if ms[0].role.Assistant? {
      assert demoted == [ms[0]];
      MergeOne(ms[0]);
    }
  }

  lemma MergeOne(m: Message)
    ensures Merge([m]) == [m]
  {
    assert Init([m]) == [];
  }

  lemma DemotingGathers<T>(f: Message -> seq<T>, ms: seq<Message>)
    requires FromAssistants(f)
    ensures FlatMap(f, MisplacedDemoted(ms)) == FlatMap(f, ms)
  {
    forall i | 0 <= i < |ms| ensures f(MisplacedDemoted(ms)[i]) == f(ms[i]) {
      if IsMisplacedAt(ms, i) {
        assert !ms[i].role.Assistant? && !Demoted(ms[i]).role.Assistant?;
      }
    }
    GatheringAlike(f, MisplacedDemoted(ms), ms);
  }

  lemma PlacingGathers<T>(f: Message -> seq<T>, cleaned: seq<Message>, model: Model)
    requires FromAssistants(f)
    ensures FlatMap(f, Placed(cleaned, model)) == FlatMap(f, cleaned)
  {
    var merged := Merge(cleaned);
    var demoted := MisplacedDemoted(merged);
    MergingGathers(f, cleaned);
    MergingGathers(f, demoted);
    DemotingGathers(f, merged);
  }

  lemma MergedRun<T>(f: Message -> seq<T>, run: seq<Message>)
    requires FromAssistants(f) && run != [] && forall i :: 0 <= i < |run| ==> run[i].role.Assistant?
    ensures |Merge(run)| == 1 && f(Merge(run)[0]) == FlatMap(f, run)
  {
    RunMergesToOne(run);
    MergingGathers(f, run);
    FlatMapOne(f, Merge(run)[0]);
    assert Merge(run) == [Merge(run)[0]];
  }

  lemma MergedRunFirst<T>(f: Message -> seq<T>, run: seq<Message>, rest: seq<Message>)
    requires FromAssistants(f) && run != [] && forall i :: 0 <= i < |run| ==> run[i].role.Assistant?
    requires rest != [] ==> !rest[0].role.Assistant?
    ensures Merge(run + rest) != [] && f(Merge(run + rest)[0]) == FlatMap(f, run)
  {
    MergedRun(f, run);
    if rest == [] {
      assert run + rest == run;
    } else {
      MergeSplitsAtRoleChange(run, rest);
    }
  }

  lemma LeadingRunMerges<T>(f: Message -> seq<T>, cleaned: seq<Message>)
    requires FromAssistants(f) && LeadingAssistants(cleaned) > 0
    ensures Merge(cleaned) != [] && f(Merge(cleaned)[0]) == FlatMap(f, cleaned[..LeadingAssistants(cleaned)])
  {
    var n := LeadingAssistants(cleaned);
    SplitAt(cleaned, n);
    MergedRunFirst(f, cleaned[..n], cleaned[n..]);
  }

  /** The first turn of the placed messages is the leading run of the history. */
  lemma LeadingTurnIsTheRun<T>(f: Message -> seq<T>, cleaned: seq<Message>, model: Model)
    requires FromAssistants(f) && cleaned != []
    ensures var placed, n := Placed(cleaned, model), LeadingAssistants(cleaned);
      && placed != [] && (placed[0].role.Assistant? <==> n > 0)
      && (n > 0 ==> f(placed[0]) == FlatMap(f, cleaned[..n]))
  {
    MergedAlternates(cleaned);
    MergedStartsAlike(cleaned);
    EnforcingKeepsTheStart(Merge(cleaned));
    if LeadingAssistants(cleaned) > 0 {
      LeadingRunMerges(f, cleaned);
    }
  }

  lemma FirstAndRest<T>(f: Message -> seq<T>, ms: seq<Message>)
    requires ms != []
    ensures FlatMap(f, ms) == f(ms[0]) + FlatMap(f, ms[1..])
  {
    FlatMapAppends(f, [ms[0]], ms[1..]);
    FlatMapOne(f, ms[0]);
    assert [ms[0]] + ms[1..] == ms;
  }

  lemma UserPassesGather<T>(f: Message -> seq<T>, stringify: ToolReferences.Stringify, ms: seq<Message>)
    requires FromAssistants(f)
    ensures FlatMap(f, UserPasses(stringify, ms)) == FlatMap(f, ms)
    ensures ms != [] ==> f(UserPasses(stringify, ms)[0]) == f(ms[0])
  {
    forall i | 0 <= i < |ms| ensures f(UserPasses(stringify, ms)[i]) == f(ms[i]) {
      assert ms[i].role.Assistant? ==> UserPass(stringify, ms[i]) == ms[i];
    }
    GatheringAlike(f, UserPasses(stringify, ms), ms);
  }

  lemma CutIsSuffix<T>(a: seq<T>, b: seq<T>, c: seq<T>, d: seq<T>)
    requires a + b == c + d && a == c
    ensures b == d
  {
    assert b == (a + b)[|a|..] && d == (c + d)[|c|..];
  }

  lemma ShiftingDropsTheRun<T>(f: Message -> seq<T>, users: seq<Message>, cleaned: seq<Message>)
    requires FlatMap(f, users) == FlatMap(f, cleaned)
    requires var n := LeadingAssistants(cleaned);
      if users != [] && users[0].role.Assistant? then f(users[0]) == FlatMap(f, cleaned[..n]) else n == 0
    ensures FlatMap(f, Shifted(users)) == FlatMap(f, cleaned[LeadingAssistants(cleaned)..])
  {
    var n := LeadingAssistants(cleaned);
    if users != [] && users[0].role.Assistant? {
      FirstAndRest(f, users);
      FlatMapAppends(f, cleaned[..n], cleaned[n..]);
      SplitAt(cleaned, n);
      CutIsSuffix(f(users[0]), FlatMap(f, users[1..]), FlatMap(f, cleaned[..n]), FlatMap(f, cleaned[n..]));
    } else {
      assert cleaned[n..] == cleaned;
    }
  }

  /** Up to here assistant turns lose nothing but the leading run. */
  lemma TurnsKeep<T>(f: Message -> seq<T>, stringify: ToolReferences.Stringify, cleaned: seq<Message>, model: Model)
    requires FromAssistants(f)
    ensures FlatMap(f, Turns(stringify, cleaned, model)) == FlatMap(f, cleaned[LeadingAssistants(cleaned)..])
  {
    var placed := Placed(cleaned, model);
    PlacingGathers(f, cleaned, model);
    UserPassesGather(f, stringify, placed);
    if cleaned != [] {
      LeadingTurnIsTheRun(f, cleaned, model);
    } else {
      assert placed == [];
    }
    ShiftingDropsTheRun(f, UserPasses(stringify, placed), cleaned);
  }

  lemma {:induction false} StrippingKeepsThoughts(blocks: seq<Block>)
    ensures FlatMap(ThoughtOf, WithoutCalls(blocks)) == FlatMap(ThoughtOf, blocks)
    ensures FlatMap(CallOf, WithoutCalls(blocks)) == []
  {
    if blocks != [] {
      var kept := if Last(blocks).kind.ToolUse? then [] else [Last(blocks)];
      StrippingKeepsThoughts(Init(blocks));
      FlatMapAppends(ThoughtOf, WithoutCalls(Init(blocks)), kept);
      FlatMapAppends(CallOf, WithoutCalls(Init(blocks)), kept);
      FlatMapOne(ThoughtOf, Last(blocks));
      FlatMapOne(CallOf, Last(blocks));
    }
  }

  lemma StrippedTurnKeepsThoughts(m: Message)
    requires m.role.Assistant? && m.content.BlockContent?
    ensures ThoughtBy(CallsStripped(m)) == ThoughtBy(m) && CallsBy(CallsStripped(m)) == []
  {
    StrippingKeepsThoughts(m.content.blocks);
    FlatMapOne(ThoughtOf, Block(Text(" ")));
    FlatMapOne(CallOf, Block(Text(" ")));
  }

  lemma TrimmedTurnKeeps(m: Message)
    requires m.role.Assistant?
    ensures ThoughtBy(TrimmedMessage(m)) == ThoughtBy(m) && CallsBy(TrimmedMessage(m)) == CallsBy(m)
  {
    if m.content.BlockContent? {
      GatheringAlike(ThoughtOf, TrimmedMessage(m).content.blocks, m.content.blocks);
      GatheringAlike(CallOf, TrimmedMessage(m).content.blocks, m.content.blocks);
    } else {
      FlatMapOne(ThoughtOf, Block(Text(m.content.text)));
      FlatMapOne(ThoughtOf, Block(Text(TrimmedMessage(m).content.text)));
      FlatMapOne(CallOf, Block(Text(m.content.text)));
      FlatMapOne(CallOf, Block(Text(TrimmedMessage(m).content.text)));
    }
  }

  lemma {:induction false} NoUseNoCall(blocks: seq<Block>)
    requires forall i :: 0 <= i < |blocks| ==> !blocks[i].kind.ToolUse?
    ensures FlatMap(CallOf, blocks) == []
  {
    if blocks != [] {
      assert forall i :: 0 <= i < |blocks| - 1 ==> Init(blocks)[i] == blocks[i];
      NoUseNoCall(Init(blocks));
    }
  }

  lemma TurnWithoutUse(m: Message)
    requires !HasToolUse(m)
    ensures CallsBy(m) == []
  {
    if m.content.BlockContent? {
      NoUseNoCall(m.content.blocks);
    } else {
      FlatMapOne(CallOf, Block(Text(m.content.text)));
    }
  }

  /** One assistant turn through stripping and trimming: its thinking stays, its calls stay exactly when they are answered. */
  lemma TurnAfterStripping(turns: seq<Message>, i: nat)
    requires i < |turns|
    ensures var out := AllTrimmed(OrphansStripped(turns));
      && ThoughtBy(out[i]) == ThoughtBy(turns[i])
      && CallsBy(out[i]) == if IsAnswered(turns, i) then CallsBy(turns[i]) else []
  {
    if turns[i].role.Assistant? {
      var m := OrphansStripped(turns)[i];
      TrimmedTurnKeeps(m);
      if !HasToolUse(turns[i]) {
        TurnWithoutUse(turns[i]);
      } else if !IsAnswered(turns, i) {
        StrippedTurnKeepsThoughts(turns[i]);
      }
    }
  }

  /** What is answered before the last passes is answered in the request. */
  lemma AnswersStay(turns: seq<Message>, model: Model, i: nat)
    requires i < |turns| && turns[i].role.Assistant?
    ensures IsAnswered(Capped(AllTrimmed(OrphansStripped(turns)), model), i) <==> IsAnswered(turns, i)
  {
  }

  lemma CallsAfterStripping(turns: seq<Message>, model: Model, i: nat)
    requires i < |turns|
    ensures var sent := Capped(AllTrimmed(OrphansStripped(turns)), model);
      i < |sent| && CallsBy(sent[i]) == if IsAnswered(sent, i) then CallsBy(turns[i]) else []
  {
    TurnAfterStripping(turns, i);
    if turns[i].role.Assistant? {
      AnswersStay(turns, model, i);
    }
  }

  /**
   * Thinking is replayed byte for byte: all of it but that of the assistant messages
   * the history starts with is in the request, in order, and nothing else is.
   */
  lemma ThinkingIsReplayed(stringify: ToolReferences.Stringify, cleaned: seq<Message>, model: Model)
    ensures FlatMap(ThoughtBy, Passed(stringify, cleaned, model)) == FlatMap(ThoughtBy, cleaned[LeadingAssistants(cleaned)..])
  {
    var turns := Turns(stringify, cleaned, model);
    var out := AllTrimmed(OrphansStripped(turns));
    ThoughtsAndCallsAreFromAssistants();
    TurnsKeep(ThoughtBy, stringify, cleaned, model);
    forall i | 0 <= i < |turns| ensures ThoughtBy(out[i]) == ThoughtBy(turns[i]) {
      TurnAfterStripping(turns, i);
    }
    GatheringAlike(ThoughtBy, out, turns);
    GatheredSnoc(ThoughtBy, out, Message(User, PlainContent(CONTINUATION)));
  }

  /** Before stripping, the turns hold every call after the leading run; the request holds those of each turn that is answered. */
  lemma AnsweredCallsAreSent(stringify: ToolReferences.Stringify, cleaned: seq<Message>, model: Model)
    ensures var turns, sent := Turns(stringify, cleaned, model), Passed(stringify, cleaned, model);
      && FlatMap(CallsBy, turns) == FlatMap(CallsBy, cleaned[LeadingAssistants(cleaned)..])
      && |turns| <= |sent|
      && forall i :: 0 <= i < |turns| ==> CallsBy(sent[i]) == if IsAnswered(sent, i) then CallsBy(turns[i]) else []
  {
    var turns := Turns(stringify, cleaned, model);
    ThoughtsAndCallsAreFromAssistants();
    TurnsKeep(CallsBy, stringify, cleaned, model);
    forall i | 0 <= i < |turns|
      ensures var sent := Passed(stringify, cleaned, model);
        CallsBy(sent[i]) == if IsAnswered(sent, i) then CallsBy(turns[i]) else []
    {
      CallsAfterStripping(turns, model, i);
    }
  }

  // ── Which of two results of one call is sent ──────────────────────

  /** The first one, as it was. */
  lemma {:induction false} FirstResultIsKept(blocks: seq<Block>, id: string)
    ensures var before, after := ToolReferences.FirstResultOf(blocks, id), ToolReferences.FirstResultOf(Deduplicated(blocks), id);
      && (before < 0 <==> after < 0)
      && (before >= 0 ==> Deduplicated(blocks)[after] == blocks[before])
  {
    if blocks != [] {
      FirstResultIsKept(Init(blocks), id);
      FirstResultSnoc(Init(blocks), Last(blocks), id);
      FirstResultSnoc(Deduplicated(Init(blocks)), Last(blocks), id);
      InitAndLast(blocks);
      ResultIdsAreFound(Init(blocks), id);
    }
  }

  lemma FirstResultSnoc(blocks: seq<Block>, last: Block, id: string)
    ensures var before := ToolReferences.FirstResultOf(blocks, id);
      ToolReferences.FirstResultOf(blocks + [last], id)
      == if before >= 0 then before else if ToolReferences.IsResultOf(last, id) then |blocks| else -1
  {
    var at := ToolReferences.FirstResultOf(blocks + [last], id);
    var before := ToolReferences.FirstResultOf(blocks, id);
    assert (blocks + [last])[|blocks|] == last;
    assert forall i :: 0 <= i < |blocks| ==> (blocks + [last])[i] == blocks[i];
    if before >= 0 {
      assert ToolReferences.IsResultOf((blocks + [last])[before], id);
    }
  }

  lemma {:induction false} ResultIdsAreFound(blocks: seq<Block>, id: string)
    ensures id in ResultIds(blocks) <==> ToolReferences.FirstResultOf(blocks, id) >= 0
  {
    if blocks != [] {
      ResultIdsAreFound(Init(blocks), id);
      FirstResultSnoc(Init(blocks), Last(blocks), id);
      InitAndLast(blocks);
      ResultIdsAppend(Init(blocks), [Last(blocks)]);
      ResultIdsOfOne(Last(blocks));
    }
  }

  // ── A stored turn goes back as it came ────────────────────────────

  /** What is stored of a response. */
  function StoredTurn(e: ThinkingLayout.Extracted): ChatMessage {
    ChatMessage(FromAssistant, e.text, "", e.toolCalls, "", "", e.thinkingBlocks, [], None, false, false)
  }

  lemma LayoutWithoutThinking(texts: seq<Kind>, calls: seq<ThinkingLayout.ToolCall>)
    ensures ThinkingLayout.Layout([], texts, calls) == texts + ThinkingLayout.ToolUses(calls)
  {
    IntroducedWithoutThinking(ThinkingLayout.CallIds(calls), calls);
    assert [] + texts == texts && ThinkingLayout.ToolUses(calls) + [] == ThinkingLayout.ToolUses(calls);
  }

  lemma {:induction false} IntroducedWithoutThinking(toolIds: seq<string>, calls: seq<ThinkingLayout.ToolCall>)
    ensures ThinkingLayout.Introduced([], toolIds, calls) == ThinkingLayout.ToolUses(calls)
  {
    if calls != [] {
      IntroducedWithoutThinking(toolIds, Init(calls));
    }
  }

  /** A response of the canonical shape with a call, split, stored and mapped again, is the response, block for block. */
  lemma StoredTurnIsReplayed(lead: seq<Kind>, texts: seq<Kind>, rest: seq<Kind>, model: Model, mode: ToolLoadingMode)
    requires ThinkingLayout.IsCanonical(lead, texts, rest)
    requires ThinkingLayout.Extract(lead + texts + rest).toolCalls != []
    ensures Clean(StoredTurn(ThinkingLayout.Extract(lead + texts + rest)), model, mode)
         == Message(Assistant, BlockContent(AsBlocks(lead + texts + rest)))
  {
    var e := ThinkingLayout.Extract(lead + texts + rest);
    ThinkingLayout.CanonicalTurnComesBack(lead, texts, rest);
    StoredCallsAreLaidOut(e, model, mode);
    assert TextIfAny(e.text) == texts;
  }

  lemma StoredCallsAreLaidOut(e: ThinkingLayout.Extracted, model: Model, mode: ToolLoadingMode)
    requires e.toolCalls != []
    ensures Clean(StoredTurn(e), model, mode)
         == Message(Assistant, BlockContent(AsBlocks(ThinkingLayout.Layout(e.thinkingBlocks, TextIfAny(e.text), e.toolCalls))))
  {
    var texts := TextIfAny(e.text);
    if e.thinkingBlocks == [] {
      LayoutWithoutThinking(texts, e.toolCalls);
      assert [] + texts == texts;
    }
  }

  /** And one of thinking and text alone. */
  lemma StoredThoughtIsReplayed(lead: seq<Kind>, text: Kind, rest: seq<Kind>, model: Model, mode: ToolLoadingMode)
    requires ThinkingLayout.IsCanonical(lead, [text], rest)
    requires ThinkingLayout.Extract(lead + [text] + rest).toolCalls == []
    requires ThinkingLayout.Extract(lead + [text] + rest).thinkingBlocks != []
    ensures Clean(StoredTurn(ThinkingLayout.Extract(lead + [text] + rest)), model, mode)
         == Message(Assistant, BlockContent(AsBlocks(lead + [text] + rest)))
  {
    var e := ThinkingLayout.Extract(lead + [text] + rest);
    assert [text][0].Text? && !IsBlank([text][0].text);
    ThinkingLayout.CanonicalTurnComesBack(lead, [text], rest);
    assert [Text(OrBlank(e.text))] == [text];
  }
}
