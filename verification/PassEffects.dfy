/** What each pass does to a turn, block by block, and that it does nothing else. */
module PassEffects {
  import opened Prelude
  import opened AnthropicBlocks
  import opened MessageMerge
  import opened PrepareMessages
  import opened PreparedContent
  import ToolReferences

  // ── Leaving blocks out ────────────────────────────────────────────

  function UnlessChange(b: Block): seq<Block> {
    if b.kind.ToolChange? then [] else [b]
  }

  function UnlessCall(b: Block): seq<Block> {
    if b.kind.ToolUse? then [] else [b]
  }

  function UnlessResult(b: Block): seq<Block> {
    if b.kind.ToolResult? then [] else [b]
  }

  /** `content` is `blocks`, or a single space when none is left. */
  ghost predicate IsRest(content: Content, blocks: seq<Block>) {
    BlocksOf(content) == if blocks == [] then [Block(Text(" "))] else blocks
  }

  lemma {:induction false} ChangesLeftOut(blocks: seq<Block>)
    ensures WithoutToolChanges(blocks) == FlatMap(UnlessChange, blocks)
  {
    if blocks != [] {
      ChangesLeftOut(Init(blocks));
    }
  }

  lemma {:induction false} CallsLeftOut(blocks: seq<Block>)
    ensures WithoutCalls(blocks) == FlatMap(UnlessCall, blocks)
  {
    if blocks != [] {
      CallsLeftOut(Init(blocks));
    }
  }

  /** A misplaced system turn becomes a user turn that says the same, its tool changes left out; it is no longer for one turn only. */
  lemma DemotingTurns(m: Message)
    requires m.role.System?
    ensures Demoted(m).role.User? && !Demoted(m).turnScoped
    ensures IsRest(Demoted(m).content, FlatMap(UnlessChange, BlocksOf(m.content)))
  {
    ChangesLeftOut(BlocksOf(m.content));
    if m.content.PlainContent? {
      FlatMapOne(UnlessChange, Block(Text(m.content.text)));
    }
  }

  /** An unanswered turn loses its calls, and nothing else. */
  lemma StrippingTurns(turns: seq<Message>, i: nat)
    requires i < |turns| && turns[i].role.Assistant? && HasToolUse(turns[i])
    ensures var after := OrphansStripped(turns)[i];
      && after.role == turns[i].role && after.turnScoped == turns[i].turnScoped
      && (IsAnswered(turns, i) ==> after == turns[i])
      && (!IsAnswered(turns, i) ==> IsRest(after.content, FlatMap(UnlessCall, BlocksOf(turns[i].content))))
  {
    CallsLeftOut(BlocksOf(turns[i].content));
  }

  lemma {:induction false} ResultsLeftOut(blocks: seq<Block>)
    ensures IsSubsequence(Deduplicated(blocks), blocks)
    ensures FlatMap(UnlessResult, Deduplicated(blocks)) == FlatMap(UnlessResult, blocks)
  {
    if blocks != [] {
      var kept, last := Deduplicated(Init(blocks)), Last(blocks);
      ResultsLeftOut(Init(blocks));
      InitAndLast(blocks);
      if Deduplicated(blocks) == kept {
        SubsequenceOfMore(kept, Init(blocks), [last]);
        NothingMore(FlatMap(UnlessResult, Init(blocks)));
      } else {
        SubsequenceOfSelf([last]);
        SubsequencesAppend(kept, Init(blocks), [last], [last]);
        FlatMapAppends(UnlessResult, kept, [last]);
        FlatMapOne(UnlessResult, last);
      }
    }
  }

  /** Deduplication leaves out later results of a call and nothing else; all that is left stays in order. */
  lemma DeduplicatingTurns(blocks: seq<Block>, id: string)
    ensures IsSubsequence(Deduplicated(blocks), blocks)
    ensures FlatMap(UnlessResult, Deduplicated(blocks)) == FlatMap(UnlessResult, blocks)
    ensures Distinct(ResultIds(Deduplicated(blocks)))
    ensures var before, after := ToolReferences.FirstResultOf(blocks, id), ToolReferences.FirstResultOf(Deduplicated(blocks), id);
      && (before < 0 <==> after < 0)
      && (before >= 0 ==> Deduplicated(blocks)[after] == blocks[before])
  {
    ResultsLeftOut(blocks);
    DeduplicatingIsDistinct(blocks);
    FirstResultIsKept(blocks, id);
  }

  // ── Trimming ──────────────────────────────────────────────────────

  ghost predicate IsCutAt(text: string, kept: string, trimmed: string) {
    && |kept| <= |text| && text[..|kept|] == kept && IsBlank(text[|kept|..])
    && (kept != "" ==> !IsSpace(Last(kept)) && trimmed == kept)
    && (kept == "" ==> trimmed == " ")
  }

  /** `trimmed` is `text` without the space at its end, or one space when nothing is left. */
  ghost predicate IsTrimmed(text: string, trimmed: string) {
    exists kept: string :: IsCutAt(text, kept, trimmed)
  }

  /** There is only one way to trim a text. */
  lemma TrimmingIsUnique(text: string, a: string, b: string)
    requires IsTrimmed(text, a) && IsTrimmed(text, b)
    ensures a == b
  {
    var x :| IsCutAt(text, x, a);
    var y :| IsCutAt(text, y, b);
    SameCut(text, x, y);
    SameCut(text, y, x);
  }

  lemma SameCut(text: string, x: string, y: string)
    requires |x| <= |text| && |y| <= |text| && text[..|x|] == x && text[..|y|] == y && IsBlank(text[|x|..])
    requires y != "" ==> !IsSpace(Last(y))
    ensures |y| <= |x|
  {
  }

  lemma {:induction false} EndIsTrimmed(text: string)
    ensures IsTrimmed(text, OrSpace(TrimEnd(text)))
  {
    EndIsBlank(text);
    assert IsCutAt(text, TrimEnd(text), OrSpace(TrimEnd(text)));
  }

  lemma {:induction false} EndIsBlank(text: string)
    ensures |TrimEnd(text)| <= |text| && text[..|TrimEnd(text)|] == TrimEnd(text) && IsBlank(text[|TrimEnd(text)|..])
  {
    if text != [] && IsSpace(Last(text)) {
      EndIsBlank(Init(text));
      forall i | |TrimEnd(text)| <= i < |text| ensures IsSpace(text[i]) {
        assert i < |text| - 1 ==> Init(text)[|TrimEnd(text)|..][i - |TrimEnd(text)|] == text[i];
      }
    }
  }

  /** A block of an assistant turn, before and after trimming. */
  ghost predicate IsTrimmedBlock(before: Block, after: Block) {
    if before.kind.Text? then
      after.kind.Text? && IsTrimmed(before.kind.text, after.kind.text) && after.boundary == before.boundary && after.cached == before.cached
    else
      after == before
  }

  /** Every text of an assistant turn is trimmed, and nothing else is touched. */
  lemma TrimmingTurns(m: Message)
    ensures var after := TrimmedMessage(m);
      && after.role == m.role && after.turnScoped == m.turnScoped
      && |BlocksOf(after.content)| == |BlocksOf(m.content)|
      && (m.role.Assistant? ==> forall i :: 0 <= i < |BlocksOf(m.content)| ==> IsTrimmedBlock(BlocksOf(m.content)[i], BlocksOf(after.content)[i]))
      && (!m.role.Assistant? ==> after == m)
  {
    if m.role.Assistant? {
      match m.content
      case PlainContent(text) => EndIsTrimmed(text);
      case BlockContent(blocks) =>
        forall i | 0 <= i < |blocks| ensures IsTrimmedBlock(blocks[i], TrimmedBlock(blocks[i])) {
          if blocks[i].kind.Text? { EndIsTrimmed(blocks[i].kind.text); }
        }
    }
  }

  // ── The continuation ──────────────────────────────────────────────

  /** The last three passes add at most one turn, and exactly when a request that may not end with the assistant would. */
  lemma ContinuationIsAdded(turns: seq<Message>, model: Model)
    ensures var sent := Capped(AllTrimmed(OrphansStripped(turns)), model);
      if turns != [] && Last(turns).role.Assistant? && model.rejectsPrefill then
        |sent| == |turns| + 1 && Last(sent) == Message(User, PlainContent("Continue."))
      else
        |sent| == |turns|
  {
    var out := AllTrimmed(OrphansStripped(turns));
    assert |out| == |turns| && forall i :: 0 <= i < |turns| ==> out[i].role == turns[i].role;
  }
}
