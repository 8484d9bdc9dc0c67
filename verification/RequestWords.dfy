/** Every word of the history is in the request: in order, unbroken, and by whom it was said. */
module RequestWords {
  import opened Prelude
  import opened AnthropicBlocks
  import opened MessageMerge
  import opened PrepareMessages
  import opened PreparedContent
  import opened HistoryMapping
  import opened PassEffects
  import ThinkingLayout
  import CacheBreakpoints
  import ToolReferences

  // ── Words in texts ────────────────────────────────────────────────

  /** A text of a request, or a word of the history, and whether the assistant said it. */
  datatype Line = Line(byAssistant: bool, text: string)

  /** Not empty, and no space at its ends. */
  predicate IsWord(w: string) {
    w != "" && !IsSpace(w[0]) && !IsSpace(Last(w))
  }

  ghost predicate AllWords(ws: seq<Line>) {
    forall i :: 0 <= i < |ws| ==> IsWord(ws[i].text)
  }

  ghost predicate IsAt(text: string, o: nat, w: string) {
    o + |w| <= |text| && text[o..o + |w|] == w
  }

  /** `w` is a contiguous part of `text`. */
  ghost predicate Contains(text: string, w: string) {
    exists o: nat :: IsAt(text, o, w)
  }

  ghost predicate CutsAt(t: Line, cut: nat, ws: seq<Line>)
    requires ws != []
    decreases |ws|, 0
  {
    && cut <= |t.text| && Last(ws).byAssistant == t.byAssistant
    && Carries(Line(t.byAssistant, t.text[..cut]), Init(ws)) && Contains(t.text[cut..], Last(ws).text)
  }

  /** The words are contiguous parts of one text by the same speaker, one behind the other. */
  ghost predicate Carries(t: Line, ws: seq<Line>)
    decreases |ws|, 1
  {
    ws == [] || exists cut: nat :: CutsAt(t, cut, ws)
  }

  ghost predicate SplitsAt(texts: seq<Line>, k: nat, ws: seq<Line>)
    requires texts != []
    decreases |texts|, 0
  {
    k <= |ws| && CarriesAll(Init(texts), ws[..k]) && Carries(Last(texts), ws[k..])
  }

  /** The words are carried by the texts, in order. */
  ghost predicate CarriesAll(texts: seq<Line>, ws: seq<Line>)
    decreases |texts|, 1
  {
    if texts == [] then ws == [] else exists k: nat :: SplitsAt(texts, k, ws)
  }

  lemma ContainsMore(a: string, text: string, b: string, w: string)
    requires Contains(text, w)
    ensures Contains(a + text + b, w)
  {
    var o: nat :| IsAt(text, o, w);
    assert (a + text + b)[|a| + o..|a| + o + |w|] == w;
    assert IsAt(a + text + b, |a| + o, w);
  }

  lemma CarriesWith(t: Line, cut: nat, ws: seq<Line>)
    requires ws != [] && CutsAt(t, cut, ws)
    ensures Carries(t, ws)
  {
  }

  lemma {:induction false} CarriesMore(t: Line, more: string, ws: seq<Line>)
    requires Carries(t, ws)
    ensures Carries(Line(t.byAssistant, t.text + more), ws)
  {
    if ws != [] {
      var cut: nat :| CutsAt(t, cut, ws);
      var longer := Line(t.byAssistant, t.text + more);
      assert longer.text[..cut] == t.text[..cut];
      assert longer.text[cut..] == "" + t.text[cut..] + more;
      ContainsMore("", t.text[cut..], more, Last(ws).text);
      CarriesWith(longer, cut, ws);
    }
  }

  lemma CutBehind(t: string, u: string, cut: nat)
    requires cut <= |u|
    ensures (t + u)[..|t| + cut] == t + u[..cut] && (t + u)[|t| + cut..] == u[cut..]
  {
  }

  lemma LastBehind<T>(a: seq<T>, b: seq<T>)
    requires b != []
    ensures Init(a + b) == a + Init(b) && Last(a + b) == Last(b)
  {
  }

  /** What one text carries, then what another carries, is carried by both in one. */
  lemma {:induction false} CarriesBoth(t: Line, u: string, ws: seq<Line>, vs: seq<Line>)
    requires Carries(t, ws) && Carries(Line(t.byAssistant, u), vs)
    ensures Carries(Line(t.byAssistant, t.text + u), ws + vs)
    decreases |vs|
  {
    if vs == [] {
      CarriesMore(t, u, ws);
      NothingMore(ws);
    } else {
      var second := Line(t.byAssistant, u);
      var cut: nat :| CutsAt(second, cut, vs);
      CarriesBoth(t, u[..cut], ws, Init(vs));
      LastBehind(ws, vs);
      CutBehind(t.text, u, cut);
      CarriesWith(Line(t.byAssistant, t.text + u), |t.text| + cut, ws + vs);
    }
  }

  lemma WordEndsBeforeSpace(kept: string, blanks: string, from: nat, w: string)
    requires IsBlank(blanks) && IsWord(w) && from <= |kept + blanks| && Contains((kept + blanks)[from..], w)
    ensures from <= |kept| && Contains(kept[from..], w)
  {
    var text := (kept + blanks)[from..];
    var o: nat :| IsAt(text, o, w);
    var end := from + o + |w| - 1;
    assert text[o..o + |w|][|w| - 1] == text[o + |w| - 1] == (kept + blanks)[end];
    assert (kept + blanks)[end] == Last(w);
    assert end < |kept|;
    assert kept[from..][o..o + |w|] == text[o..o + |w|];
    assert IsAt(kept[from..], o, w);
  }

  /** Trailing space carries no word. */
  lemma CarriesWithoutBlanks(byAssistant: bool, kept: string, blanks: string, ws: seq<Line>)
    requires IsBlank(blanks) && AllWords(ws) && Carries(Line(byAssistant, kept + blanks), ws)
    ensures Carries(Line(byAssistant, kept), ws)
  {
    if ws != [] {
      var t := Line(byAssistant, kept + blanks);
      var cut: nat :| CutsAt(t, cut, ws);
      assert IsWord(ws[|ws| - 1].text);
      WordEndsBeforeSpace(kept, blanks, cut, Last(ws).text);
      assert (kept + blanks)[..cut] == kept[..cut];
      CarriesWith(Line(byAssistant, kept), cut, ws);
    }
  }

  lemma SplitWith(texts: seq<Line>, k: nat, ws: seq<Line>)
    requires texts != [] && SplitsAt(texts, k, ws)
    ensures CarriesAll(texts, ws)
  {
  }

  lemma SplitOf(texts: seq<Line>, ws: seq<Line>) returns (k: nat)
    requires texts != [] && CarriesAll(texts, ws)
    ensures SplitsAt(texts, k, ws)
  {
    k :| SplitsAt(texts, k, ws);
  }

  lemma {:induction false} NothingToCarry(texts: seq<Line>)
    ensures CarriesAll(texts, [])
  {
    if texts != [] {
      NothingToCarry(Init(texts));
      SplitWith(texts, 0, []);
    }
  }

  lemma CarriedByOne(t: Line, ws: seq<Line>)
    ensures CarriesAll([t], ws) <==> Carries(t, ws)
  {
    assert Init([t]) == [];
    if Carries(t, ws) {
      assert ws[..0] == [] && ws[0..] == ws;
      SplitWith([t], 0, ws);
    }
    if CarriesAll([t], ws) {
      var k := SplitOf([t], ws);
      assert CarriesAll([], ws[..k]);
      assert ws[..k] == [] && ws[k..] == ws;
    }
  }

  lemma {:induction false} CarriesAllBoth(a: seq<Line>, b: seq<Line>, ws: seq<Line>, vs: seq<Line>)
    requires CarriesAll(a, ws) && CarriesAll(b, vs)
    ensures CarriesAll(a + b, ws + vs)
  {
    if b == [] {
      NothingMore(a);
      NothingMore(ws);
    } else {
      var k: nat :| SplitsAt(b, k, vs);
      CarriesAllBoth(a, Init(b), ws, vs[..k]);
      LastBehind(a, b);
      assert (ws + vs)[..|ws| + k] == ws + vs[..k] && (ws + vs)[|ws| + k..] == vs[k..];
      SplitWith(a + b, |ws| + k, ws + vs);
    }
  }

  /** What a list of texts carries is cut where the list is cut. */
  lemma {:induction false} CutWithTexts(a: seq<Line>, b: seq<Line>, ws: seq<Line>) returns (k: nat)
    requires CarriesAll(a + b, ws)
    ensures k <= |ws| && CarriesAll(a, ws[..k]) && CarriesAll(b, ws[k..])
  {
    if b == [] {
      k := |ws|;
      NothingMore(a);
      assert ws[..k] == ws && ws[k..] == [];
    } else {
      LastBehind(a, b);
      var n: nat :| SplitsAt(a + b, n, ws);
      k := CutWithTexts(a, Init(b), ws[..n]);
      assert ws[..n][..k] == ws[..k];
      assert ws[k..][..n - k] == ws[..n][k..] && ws[k..][n - k..] == ws[n..];
      SplitWith(b, n - k, ws[k..]);
    }
  }

  // ── Rewriting texts ───────────────────────────────────────────────

  /** Whatever words `texts` carries, `after` carries too. */
  ghost predicate Keeps(texts: seq<Line>, after: seq<Line>) {
    forall ws: seq<Line> | AllWords(ws) && CarriesAll(texts, ws) :: CarriesAll(after, ws)
  }

  lemma KeepsSelf(texts: seq<Line>)
    ensures Keeps(texts, texts)
  {
  }

  lemma KeepsTransitive(a: seq<Line>, b: seq<Line>, c: seq<Line>)
    requires Keeps(a, b) && Keeps(b, c)
    ensures Keeps(a, c)
  {
  }

  lemma KeepsBoth(a: seq<Line>, c: seq<Line>, b: seq<Line>, d: seq<Line>)
    requires Keeps(a, c) && Keeps(b, d)
    ensures Keeps(a + b, c + d)
  {
    forall ws: seq<Line> | AllWords(ws) && CarriesAll(a + b, ws)
      ensures CarriesAll(c + d, ws)
    {
      var k := CutWithTexts(a, b, ws);
      assert AllWords(ws[..k]) && AllWords(ws[k..]);
      CarriesAllBoth(c, d, ws[..k], ws[k..]);
      SplitAt(ws, k);
    }
  }

  lemma KeepsNothing(texts: seq<Line>)
    ensures Keeps([], texts)
  {
    forall ws: seq<Line> | AllWords(ws) && CarriesAll([], ws)
      ensures CarriesAll(texts, ws)
    {
      NothingToCarry(texts);
    }
  }

  /** Two texts joined by anything. */
  lemma KeepsJoined(byAssistant: bool, t: string, between: string, u: string)
    ensures Keeps([Line(byAssistant, t)] + [Line(byAssistant, u)], [Line(byAssistant, t + between + u)])
  {
    var a, b, both := Line(byAssistant, t), Line(byAssistant, u), Line(byAssistant, t + between + u);
    forall ws: seq<Line> | AllWords(ws) && CarriesAll([a] + [b], ws)
      ensures CarriesAll([both], ws)
    {
      var k := CutWithTexts([a], [b], ws);
      CarriedByOne(a, ws[..k]);
      CarriedByOne(b, ws[k..]);
      CarriesMore(a, between, ws[..k]);
      CarriesBoth(Line(byAssistant, t + between), u, ws[..k], ws[k..]);
      SplitAt(ws, k);
      CarriedByOne(both, ws);
    }
  }

  lemma NoWordInSpace(byAssistant: bool, text: string, ws: seq<Line>)
    requires IsBlank(text) && AllWords(ws) && Carries(Line(byAssistant, text), ws)
    ensures ws == []
  {
  }

  /** A text without its trailing space, or one space when nothing else is left. */
  lemma KeepsTrimmed(byAssistant: bool, kept: string, blanks: string)
    requires IsBlank(blanks)
    ensures Keeps([Line(byAssistant, kept + blanks)], [Line(byAssistant, if kept == "" then " " else kept)])
  {
    var before, after := Line(byAssistant, kept + blanks), Line(byAssistant, if kept == "" then " " else kept);
    forall ws: seq<Line> | AllWords(ws) && CarriesAll([before], ws)
      ensures CarriesAll([after], ws)
    {
      CarriedByOne(before, ws);
      CarriedByOne(after, ws);
      if kept == "" {
        assert kept + blanks == blanks;
        NoWordInSpace(byAssistant, blanks, ws);
      } else {
        CarriesWithoutBlanks(byAssistant, kept, blanks, ws);
      }
    }
  }

  lemma {:induction false} KeepsInserted(a: seq<Line>, b: seq<Line>)
    requires IsSubsequence(a, b)
    ensures Keeps(a, b)
  {
    if a == [] {
      KeepsNothing(b);
    } else if Last(a) == Last(b) && IsSubsequence(Init(a), Init(b)) {
      KeepsInserted(Init(a), Init(b));
      KeepsSelf([Last(a)]);
      KeepsBoth(Init(a), Init(b), [Last(a)], [Last(b)]);
      InitAndLast(a);
      InitAndLast(b);
    } else {
      KeepsInserted(a, Init(b));
      KeepsNothing([Last(b)]);
      KeepsBoth(a, Init(b), [], [Last(b)]);
      NothingMore(a);
      InitAndLast(b);
    }
  }

  // ── The texts of messages ─────────────────────────────────────────

  function LineOf(byAssistant: bool, b: Block): seq<Line> {
    if b.kind.Text? then [Line(byAssistant, b.kind.text)] else []
  }

  function LinesIn(byAssistant: bool, blocks: seq<Block>): seq<Line> {
    if blocks == [] then [] else LinesIn(byAssistant, Init(blocks)) + LineOf(byAssistant, Last(blocks))
  }

  function LinesBy(m: Message): seq<Line> {
    LinesIn(m.role.Assistant?, BlocksOf(m.content))
  }

  /** The texts of a list of messages, in order, each with its speaker. */
  function Lines(ms: seq<Message>): seq<Line> {
    FlatMap(LinesBy, ms)
  }

  lemma {:induction false} LinesAppend(byAssistant: bool, a: seq<Block>, b: seq<Block>)
    ensures LinesIn(byAssistant, a + b) == LinesIn(byAssistant, a) + LinesIn(byAssistant, b)
  {
    if b == [] {
      NothingMore(a);
      NothingMore(LinesIn(byAssistant, a));
    } else {
      LinesAppend(byAssistant, a, Init(b));
      LastBehind(a, b);
      Regroup(LinesIn(byAssistant, a), LinesIn(byAssistant, Init(b)), LineOf(byAssistant, Last(b)));
    }
  }

  lemma LinesOfOne(byAssistant: bool, b: Block)
    ensures LinesIn(byAssistant, [b]) == LineOf(byAssistant, b)
  {
    assert Init([b]) == [];
  }

  lemma {:induction false} KeepsEachBlock(byAssistant: bool, a: seq<Block>, b: seq<Block>)
    requires |a| == |b| && forall i :: 0 <= i < |a| ==> Keeps(LineOf(byAssistant, a[i]), LineOf(byAssistant, b[i]))
    ensures Keeps(LinesIn(byAssistant, a), LinesIn(byAssistant, b))
  {
    if a == [] {
      KeepsSelf([]);
    } else {
      assert forall i :: 0 <= i < |a| - 1 ==> Init(a)[i] == a[i] && Init(b)[i] == b[i];
      KeepsEachBlock(byAssistant, Init(a), Init(b));
      assert Last(a) == a[|a| - 1] && Last(b) == b[|a| - 1];
      KeepsBoth(LinesIn(byAssistant, Init(a)), LinesIn(byAssistant, Init(b)), LineOf(byAssistant, Last(a)), LineOf(byAssistant, Last(b)));
    }
  }

  lemma {:induction false} KeepsEach(a: seq<Message>, b: seq<Message>)
    requires |a| == |b| && forall i :: 0 <= i < |a| ==> Keeps(LinesBy(a[i]), LinesBy(b[i]))
    ensures Keeps(Lines(a), Lines(b))
  {
    if a == [] {
      KeepsSelf([]);
    } else {
      assert forall i :: 0 <= i < |a| - 1 ==> Init(a)[i] == a[i] && Init(b)[i] == b[i];
      KeepsEach(Init(a), Init(b));
      assert Last(a) == a[|a| - 1] && Last(b) == b[|a| - 1];
      KeepsBoth(Lines(Init(a)), Lines(Init(b)), LinesBy(Last(a)), LinesBy(Last(b)));
    }
  }

  // ── Each pass keeps the words ─────────────────────────────────────

  lemma JoiningKeeps(a: Message, b: Message)
    requires a.role == b.role
    ensures Keeps(LinesBy(a) + LinesBy(b), LinesBy(Joined(a, b)))
  {
    var speaker := a.role.Assistant?;
    if Joined(a, b).content.PlainContent? {
      LinesOfOne(speaker, Block(Text(a.content.text)));
      LinesOfOne(speaker, Block(Text(b.content.text)));
      LinesOfOne(speaker, Block(Text(a.content.text + "\n\n" + b.content.text)));
      KeepsJoined(speaker, a.content.text, "\n\n", b.content.text);
    } else {
      LinesAppend(speaker, BlocksOf(a.content), BlocksOf(b.content));
      KeepsSelf(LinesBy(a) + LinesBy(b));
    }
  }

  lemma MergeIntoKeeps(merged: seq<Message>, current: Message)
    ensures Keeps(Lines(merged) + LinesBy(current), Lines(MergeInto(merged, current)))
  {
    if merged != [] && Last(merged).role == current.role {
      var front, previous := Init(merged), Last(merged);
      InitAndLast(merged);
      GatheredSnoc(LinesBy, front, previous);
      GatheredSnoc(LinesBy, front, Joined(previous, current));
      JoiningKeeps(previous, current);
      KeepsSelf(Lines(front));
      KeepsBoth(Lines(front), Lines(front), LinesBy(previous) + LinesBy(current), LinesBy(Joined(previous, current)));
      Regroup(Lines(front), LinesBy(previous), LinesBy(current));
    } else {
      GatheredSnoc(LinesBy, merged, current);
      KeepsSelf(Lines(merged) + LinesBy(current));
    }
  }

  lemma {:induction false} MergingKeeps(ms: seq<Message>)
    ensures Keeps(Lines(ms), Lines(Merge(ms)))
  {
    if ms == [] {
      KeepsSelf([]);
    } else {
      MergingKeeps(Init(ms));
      KeepsSelf(LinesBy(Last(ms)));
      KeepsBoth(Lines(Init(ms)), Lines(Merge(Init(ms))), LinesBy(Last(ms)), LinesBy(Last(ms)));
      MergeIntoKeeps(Merge(Init(ms)), Last(ms));
      KeepsTransitive(Lines(ms), Lines(Merge(Init(ms))) + LinesBy(Last(ms)), Lines(Merge(ms)));
    }
  }

  lemma {:induction false} ToolChangesAreNoLines(byAssistant: bool, blocks: seq<Block>)
    ensures LinesIn(byAssistant, WithoutToolChanges(blocks)) == LinesIn(byAssistant, blocks)
  {
    if blocks != [] {
      var kept := if Last(blocks).kind.ToolChange? then [] else [Last(blocks)];
      ToolChangesAreNoLines(byAssistant, Init(blocks));
      LinesAppend(byAssistant, WithoutToolChanges(Init(blocks)), kept);
      LinesOfOne(byAssistant, Last(blocks));
      NothingMore(LinesIn(byAssistant, Init(blocks)));
    }
  }

  lemma DemotingKeeps(m: Message)
    requires m.role.System?
    ensures Keeps(LinesBy(m), LinesBy(Demoted(m)))
  {
    match m.content
    case PlainContent(_) => KeepsSelf(LinesBy(m));
    case BlockContent(blocks) =>
      ToolChangesAreNoLines(false, blocks);
      if WithoutToolChanges(blocks) == [] {
        KeepsNothing(LinesBy(Demoted(m)));
      } else {
        KeepsSelf(LinesBy(m));
      }
  }

  lemma DemotingAllKeeps(ms: seq<Message>)
    ensures Keeps(Lines(ms), Lines(MisplacedDemoted(ms)))
  {
    forall i | 0 <= i < |ms| ensures Keeps(LinesBy(ms[i]), LinesBy(MisplacedDemoted(ms)[i])) {
      if IsMisplacedAt(ms, i) { DemotingKeeps(ms[i]); } else { KeepsSelf(LinesBy(ms[i])); }
    }
    KeepsEach(ms, MisplacedDemoted(ms));
  }

  lemma {:induction false} LinesAreSaid(blocks: seq<Block>)
    ensures LinesIn(false, SaidIn(blocks)) == LinesIn(false, blocks)
  {
    if blocks != [] {
      LinesAreSaid(Init(blocks));
      LinesAppend(false, SaidIn(Init(blocks)), SaidOf(Last(blocks)));
      LinesOfOne(false, Last(blocks));
    }
  }

  lemma {:induction false} LinesOfSubsequence(byAssistant: bool, a: seq<Block>, b: seq<Block>)
    requires IsSubsequence(a, b)
    ensures IsSubsequence(LinesIn(byAssistant, a), LinesIn(byAssistant, b))
  {
    if a != [] {
      if Last(a) == Last(b) && IsSubsequence(Init(a), Init(b)) {
        LinesOfSubsequence(byAssistant, Init(a), Init(b));
        SubsequenceOfSelf(LineOf(byAssistant, Last(b)));
        SubsequencesAppend(LinesIn(byAssistant, Init(a)), LinesIn(byAssistant, Init(b)), LineOf(byAssistant, Last(a)), LineOf(byAssistant, Last(b)));
      } else {
        LinesOfSubsequence(byAssistant, a, Init(b));
        SubsequenceOfMore(LinesIn(byAssistant, a), LinesIn(byAssistant, Init(b)), LineOf(byAssistant, Last(b)));
      }
    }
  }

  lemma SayingKeeps(a: Message, b: Message)
    requires a.role.User? && b.role.User? && IsSubsequence(SaidBy(a), SaidBy(b))
    ensures Keeps(LinesBy(a), LinesBy(b))
  {
    LinesAreSaid(BlocksOf(a.content));
    LinesAreSaid(BlocksOf(b.content));
    LinesOfSubsequence(false, SaidBy(a), SaidBy(b));
    KeepsInserted(LinesBy(a), LinesBy(b));
  }

  lemma UserPassesKeep(stringify: ToolReferences.Stringify, ms: seq<Message>)
    ensures Keeps(Lines(ms), Lines(UserPasses(stringify, ms)))
  {
    var users := UserPasses(stringify, ms);
    UserPassesSayAtLeast(stringify, ms);
    forall i | 0 <= i < |ms| ensures Keeps(LinesBy(ms[i]), LinesBy(users[i])) {
      if ms[i].role.User? { SayingKeeps(ms[i], users[i]); } else { KeepsSelf(LinesBy(ms[i])); }
    }
    KeepsEach(ms, users);
  }

  lemma {:induction false} CallsAreNoLines(byAssistant: bool, blocks: seq<Block>)
    ensures LinesIn(byAssistant, WithoutCalls(blocks)) == LinesIn(byAssistant, blocks)
  {
    if blocks != [] {
      var kept := if Last(blocks).kind.ToolUse? then [] else [Last(blocks)];
      CallsAreNoLines(byAssistant, Init(blocks));
      LinesAppend(byAssistant, WithoutCalls(Init(blocks)), kept);
      LinesOfOne(byAssistant, Last(blocks));
      NothingMore(LinesIn(byAssistant, Init(blocks)));
    }
  }

  lemma StrippingKeeps(m: Message)
    requires m.content.BlockContent?
    ensures Keeps(LinesBy(m), LinesBy(CallsStripped(m)))
  {
    CallsAreNoLines(m.role.Assistant?, m.content.blocks);
    if WithoutCalls(m.content.blocks) == [] {
      KeepsNothing(LinesBy(CallsStripped(m)));
    } else {
      KeepsSelf(LinesBy(m));
    }
  }

  lemma StrippingAllKeeps(ms: seq<Message>)
    ensures Keeps(Lines(ms), Lines(OrphansStripped(ms)))
  {
    forall i | 0 <= i < |ms| ensures Keeps(LinesBy(ms[i]), LinesBy(OrphansStripped(ms)[i])) {
      KeepsSelf(LinesBy(ms[i]));
      if ms[i].content.BlockContent? { StrippingKeeps(ms[i]); }
    }
    KeepsEach(ms, OrphansStripped(ms));
  }

  lemma TrimmingTextKeeps(byAssistant: bool, text: string)
    ensures Keeps([Line(byAssistant, text)], [Line(byAssistant, OrSpace(TrimEnd(text)))])
  {
    var n := |TrimEnd(text)|;
    EndIsBlank(text);
    SplitAt(text, n);
    KeepsTrimmed(byAssistant, TrimEnd(text), text[n..]);
  }

  lemma TrimmingKeeps(m: Message)
    ensures Keeps(LinesBy(m), LinesBy(TrimmedMessage(m)))
  {
    if !m.role.Assistant? {
      KeepsSelf(LinesBy(m));
    } else {
      match m.content
      case PlainContent(text) =>
        LinesOfOne(true, Block(Text(text)));
        LinesOfOne(true, Block(Text(OrSpace(TrimEnd(text)))));
        TrimmingTextKeeps(true, text);
      case BlockContent(blocks) =>
        var trimmed := TrimmedMessage(m).content.blocks;
        forall i | 0 <= i < |blocks| ensures Keeps(LineOf(true, blocks[i]), LineOf(true, trimmed[i])) {
          KeepsSelf(LineOf(true, blocks[i]));
          if blocks[i].kind.Text? { TrimmingTextKeeps(true, blocks[i].kind.text); }
        }
        KeepsEachBlock(true, blocks, trimmed);
    }
  }

  lemma TrimmingAllKeeps(ms: seq<Message>)
    ensures Keeps(Lines(ms), Lines(AllTrimmed(ms)))
  {
    forall i | 0 <= i < |ms| ensures Keeps(LinesBy(ms[i]), LinesBy(AllTrimmed(ms)[i])) {
      TrimmingKeeps(ms[i]);
    }
    KeepsEach(ms, AllTrimmed(ms));
  }

  lemma CappingKeeps(ms: seq<Message>, model: Model)
    ensures Keeps(Lines(ms), Lines(Capped(ms, model)))
  {
    var last := Message(User, PlainContent(CONTINUATION));
    KeepsSelf(Lines(ms));
    KeepsNothing(LinesBy(last));
    KeepsBoth(Lines(ms), Lines(ms), [], LinesBy(last));
    NothingMore(Lines(ms));
    GatheredSnoc(LinesBy, ms, last);
  }

  /** The last passes, behind the shift. */
  lemma LastPassesKeep(turns: seq<Message>, model: Model)
    ensures Keeps(Lines(turns), Lines(Capped(AllTrimmed(OrphansStripped(turns)), model)))
  {
    var stripped := OrphansStripped(turns);
    var trimmed := AllTrimmed(stripped);
    StrippingAllKeeps(turns);
    TrimmingAllKeeps(stripped);
    KeepsTransitive(Lines(turns), Lines(stripped), Lines(trimmed));
    CappingKeeps(trimmed, model);
    KeepsTransitive(Lines(turns), Lines(trimmed), Lines(Capped(trimmed, model)));
  }

  // ── Placing, and the leading run ──────────────────────────────────

  lemma EnforcingKeeps(ms: seq<Message>)
    ensures Keeps(Lines(ms), Lines(SystemsEnforced(ms)))
  {
    KeepsSelf(Lines(ms));
    DemotingAllKeeps(ms);
    MergingKeeps(MisplacedDemoted(ms));
    KeepsTransitive(Lines(ms), Lines(MisplacedDemoted(ms)), Lines(Merge(MisplacedDemoted(ms))));
  }

  lemma MergeBehindFirst(ms: seq<Message>)
    requires ms != [] && (|ms| > 1 ==> ms[0].role != ms[1].role)
    ensures Merge(ms) == [ms[0]] + Merge(ms[1..])
  {
    HeadAndTail(ms);
    MergeOne(ms[0]);
    if |ms| > 1 {
      MergeSplitsAtRoleChange([ms[0]], ms[1..]);
    }
  }

  lemma DemotedMergesBehindFirst(ms: seq<Message>)
    requires Alternates(ms) && ms != [] && ms[0].role.Assistant?
    ensures Merge(MisplacedDemoted(ms)) == [ms[0]] + Merge(MisplacedDemoted(ms)[1..])
  {
    var demoted := MisplacedDemoted(ms);
    assert |ms| > 1 ==> ms[0].role != ms[1].role;
    assert demoted[0] == ms[0];
    MergeBehindFirst(demoted);
  }

  /** What stands behind a leading assistant turn keeps its words on its own. */
  lemma EnforcingKeepsTheRest(ms: seq<Message>)
    requires Alternates(ms) && ms != [] && ms[0].role.Assistant?
    ensures SystemsEnforced(ms) != [] && Keeps(Lines(ms[1..]), Lines(SystemsEnforced(ms)[1..]))
  {
    var rest := MisplacedDemoted(ms)[1..];
    KeepsSelf(Lines(ms[1..]));
    DemotingTheRest(ms);
    MergingKeeps(rest);
    KeepsTransitive(Lines(ms[1..]), Lines(rest), Lines(Merge(rest)));
    DemotedMergesBehindFirst(ms);
    BehindFirst(ms[0], Merge(rest), Merge(MisplacedDemoted(ms)));
  }

  lemma BehindFirst<T>(first: T, rest: seq<T>, all: seq<T>)
    requires all == [first] + rest
    ensures all[1..] == rest
  {
  }

  lemma HeadAndTail<T>(s: seq<T>)
    requires s != []
    ensures s == [s[0]] + s[1..]
  {
  }

  lemma DemotingTheRest(ms: seq<Message>)
    requires ms != []
    ensures Keeps(Lines(ms[1..]), Lines(MisplacedDemoted(ms)[1..]))
  {
    var demoted := MisplacedDemoted(ms);
    forall i | 0 <= i < |ms| - 1 ensures Keeps(LinesBy(ms[1..][i]), LinesBy(demoted[1..][i])) {
      assert ms[1..][i] == ms[i + 1] && demoted[1..][i] == demoted[i + 1];
      if IsMisplacedAt(ms, i + 1) { DemotingKeeps(ms[i + 1]); } else { KeepsSelf(LinesBy(ms[i + 1])); }
    }
    KeepsEach(ms[1..], demoted[1..]);
  }

  lemma MergedRest(cleaned: seq<Message>)
    requires LeadingAssistants(cleaned) > 0
    ensures Merge(cleaned) != [] && Merge(cleaned)[0].role.Assistant?
    ensures Merge(cleaned)[1..] == Merge(cleaned[LeadingAssistants(cleaned)..])
  {
    var n := LeadingAssistants(cleaned);
    var run, rest := cleaned[..n], cleaned[n..];
    RunMergesToOne(run);
    SplitAt(cleaned, n);
    if rest != [] {
      MergeSplitsAtRoleChange(run, rest);
    } else {
      assert run == cleaned;
    }
  }

  lemma PlacingKeepsTheRest(cleaned: seq<Message>, model: Model)
    requires LeadingAssistants(cleaned) > 0
    ensures Placed(cleaned, model) != [] && Placed(cleaned, model)[0].role.Assistant?
    ensures Keeps(Lines(cleaned[LeadingAssistants(cleaned)..]), Lines(Placed(cleaned, model)[1..]))
  {
    var rest := cleaned[LeadingAssistants(cleaned)..];
    MergedAlternates(cleaned);
    MergedRest(cleaned);
    MergingKeeps(rest);
    EnforcingKeepsTheStart(Merge(cleaned));
    EnforcingKeepsTheRest(Merge(cleaned));
    KeepsTransitive(Lines(rest), Lines(Merge(rest)), Lines(SystemsEnforced(Merge(cleaned))[1..]));
  }

  lemma PlacingKeeps(cleaned: seq<Message>, model: Model)
    requires LeadingAssistants(cleaned) == 0
    ensures Placed(cleaned, model) != [] ==> !Placed(cleaned, model)[0].role.Assistant?
    ensures Keeps(Lines(cleaned), Lines(Placed(cleaned, model)))
  {
    MergedAlternates(cleaned);
    MergingKeeps(cleaned);
    EnforcingKeeps(Merge(cleaned));
    KeepsTransitive(Lines(cleaned), Lines(Merge(cleaned)), Lines(SystemsEnforced(Merge(cleaned))));
    if cleaned != [] {
      MergedStartsAlike(cleaned);
      EnforcingKeepsTheStart(Merge(cleaned));
    }
  }

  lemma ShiftedUserPasses(stringify: ToolReferences.Stringify, placed: seq<Message>)
    ensures Shifted(UserPasses(stringify, placed)) == UserPasses(stringify, Shifted(placed))
  {
    var users := UserPasses(stringify, placed);
    if placed != [] {
      assert users[0].role == placed[0].role;
      assert users[1..] == UserPasses(stringify, placed[1..]);
    }
  }

  /** Placed, passed and shifted, the messages behind the leading run keep their words. */
  lemma TurnsKeepTheWords(stringify: ToolReferences.Stringify, cleaned: seq<Message>, model: Model)
    ensures Keeps(Lines(cleaned[LeadingAssistants(cleaned)..]), Lines(Turns(stringify, cleaned, model)))
  {
    var rest, shifted := cleaned[LeadingAssistants(cleaned)..], Shifted(Placed(cleaned, model));
    if LeadingAssistants(cleaned) > 0 {
      PlacingKeepsTheRest(cleaned, model);
    } else {
      assert rest == cleaned;
      PlacingKeeps(cleaned, model);
    }
    UserPassesKeep(stringify, shifted);
    ShiftedUserPasses(stringify, Placed(cleaned, model));
    KeepsTransitive(Lines(rest), Lines(shifted), Lines(UserPasses(stringify, shifted)));
  }

  lemma PassesKeepTheWords(stringify: ToolReferences.Stringify, cleaned: seq<Message>, model: Model)
    ensures Keeps(Lines(cleaned[LeadingAssistants(cleaned)..]), Lines(Passed(stringify, cleaned, model)))
  {
    var rest, turns := Lines(cleaned[LeadingAssistants(cleaned)..]), Turns(stringify, cleaned, model);
    TurnsKeepTheWords(stringify, cleaned, model);
    LastPassesKeep(turns, model);
    KeepsTransitive(rest, Lines(turns), Lines(Passed(stringify, cleaned, model)));
  }

  // ── From the history ──────────────────────────────────────────────

  ghost predicate IsBetween(content: string, front: string, w: string, back: string) {
    IsBlank(front) && IsBlank(back) && content == front + w + back
  }

  /** `w` is `content` without the space around it. */
  ghost predicate IsCore(content: string, w: string) {
    IsWord(w) && exists front: string, back: string :: IsBetween(content, front, w, back)
  }

  /** Whether a message of the history says something: what a tool returned is no one's word. */
  predicate Speaks(m: ChatMessage) {
    (m.role.FromUser? || m.role.FromAssistant? || m.role.FromSystem?) && !IsBlank(m.content)
  }

  ghost predicate IsWordOf(m: ChatMessage, word: Line) {
    word.byAssistant == m.role.FromAssistant? && IsCore(m.content, word.text)
  }

  /** The words of a history: of each message that says something, in order. */
  ghost predicate AreWords(history: seq<ChatMessage>, words: seq<Line>) {
    if history == [] then words == []
    else if Speaks(Last(history)) then words != [] && IsWordOf(Last(history), Last(words)) && AreWords(Init(history), Init(words))
    else AreWords(Init(history), words)
  }

  lemma {:induction false} CoreExists(content: string) returns (w: string)
    requires !IsBlank(content)
    ensures IsCore(content, w)
    decreases |content|
  {
    var last := Last(content);
    if IsSpace(content[0]) {
      HeadAndTail(content);
      w := CoreExists(content[1..]);
      var front, back :| IsBetween(content[1..], front, w, back);
      Regroup([content[0]], front, w);
      Regroup([content[0]], front + w, back);
      assert IsBetween(content, [content[0]] + front, w, back);
    } else if IsSpace(last) {
      InitAndLast(content);
      w := CoreExists(Init(content));
      var front, back :| IsBetween(Init(content), front, w, back);
      Regroup(front + w, back, [last]);
      assert IsBetween(content, front, w, back + [last]);
    } else {
      w := content;
      NothingMore(content);
      assert "" + content == content;
      assert IsBetween(content, "", w, "");
    }
  }

  /** Every history has its words. */
  lemma {:induction false} WordsExist(history: seq<ChatMessage>) returns (words: seq<Line>)
    ensures AreWords(history, words)
  {
    if history == [] {
      words := [];
    } else {
      words := WordsExist(Init(history));
      if Speaks(Last(history)) {
        var w := CoreExists(Last(history).content);
        var before := words;
        words := before + [Line(Last(history).role.FromAssistant?, w)];
        assert Init(words) == before;
      }
    }
  }

  lemma CarriedByBlock(byAssistant: bool, blocks: seq<Block>, i: nat, w: string)
    requires i < |blocks| && blocks[i].kind.Text? && Contains(blocks[i].kind.text, w)
    ensures CarriesAll(LinesIn(byAssistant, blocks), [Line(byAssistant, w)])
  {
    var t, word := Line(byAssistant, blocks[i].kind.text), Line(byAssistant, w);
    CutAt(blocks, i);
    LinesAppend(byAssistant, blocks[..i] + [blocks[i]], blocks[i + 1..]);
    LinesAppend(byAssistant, blocks[..i], [blocks[i]]);
    LinesOfOne(byAssistant, blocks[i]);
    CarriesItsPart(t, word);
    NothingToCarry(LinesIn(byAssistant, blocks[..i]));
    NothingToCarry(LinesIn(byAssistant, blocks[i + 1..]));
    CarriedByOne(t, [word]);
    CarriesAllBoth(LinesIn(byAssistant, blocks[..i]), [t], [], [word]);
    CarriesAllBoth(LinesIn(byAssistant, blocks[..i]) + [t], LinesIn(byAssistant, blocks[i + 1..]), [] + [word], []);
    assert [] + [word] + [] == [word];
  }

  lemma CarriesItsPart(t: Line, word: Line)
    requires word.byAssistant == t.byAssistant && Contains(t.text, word.text)
    ensures Carries(t, [word])
  {
    assert Init([word]) == [] && t.text[0..] == t.text;
    CarriesWith(t, 0, [word]);
  }

  lemma CoreIsPart(content: string, w: string)
    requires IsCore(content, w)
    ensures Contains(content, w) && !IsBlank(content)
  {
    var front, back :| IsBetween(content, front, w, back);
    assert content[|front|..|front| + |w|] == w;
    assert IsAt(content, |front|, w);
    assert content[|front|] == w[0];
  }

  lemma {:induction false} TrimEndLeaves(kept: string, blanks: string)
    requires kept != "" && !IsSpace(Last(kept)) && IsBlank(blanks)
    ensures TrimEnd(kept + blanks) == kept
  {
    if blanks == "" {
      NothingMore(kept);
    } else {
      TrimEndLeaves(kept, Init(blanks));
      assert Init(kept + blanks) == kept + Init(blanks) && Last(kept + blanks) == Last(blanks);
      assert Last(blanks) == blanks[|blanks| - 1];
    }
  }

  lemma {:induction false} TrimStartLeaves(blanks: string, kept: string)
    requires kept != "" && !IsSpace(kept[0]) && IsBlank(blanks)
    ensures TrimStart(blanks + kept) == kept
  {
    if blanks == "" {
      assert blanks + kept == kept;
    } else {
      TrimStartLeaves(blanks[1..], kept);
      assert (blanks + kept)[1..] == blanks[1..] + kept && (blanks + kept)[0] == blanks[0];
    }
  }

  /** Trimmed at both ends, a content is its word. */
  lemma TrimmedIsCore(content: string, w: string)
    requires IsCore(content, w)
    ensures Trimmed(content) == w
  {
    var front, back :| IsBetween(content, front, w, back);
    assert Last(front + w) == Last(w);
    TrimEndLeaves(front + w, back);
    TrimStartLeaves(front, w);
  }

  lemma PartOfSelf(w: string)
    ensures Contains(w, w)
  {
    assert w[0..|w|] == w;
    assert IsAt(w, 0, w);
  }

  /** Where the text of an assistant message ends up among its blocks. */
  function TextAt(m: ChatMessage): nat {
    var ids := ThinkingLayout.CallIds(m.toolCalls);
    if m.toolCalls == [] && m.media != [] then |m.media|
    else if m.thinkingBlocks != [] then |ThinkingLayout.At(m.thinkingBlocks, ids, ThinkingLayout.Leading)|
    else |LegacyThinking(m)|
  }

  lemma AssistantHoldsItsText(m: ChatMessage)
    requires !IsBlank(m.content) && CleanAssistant(m).content.BlockContent?
    ensures var blocks := CleanAssistant(m).content.blocks;
      TextAt(m) < |blocks| && blocks[TextAt(m)].kind == Text(m.content)
  {
  }

  lemma AssistantCarriesItsWord(m: ChatMessage, w: string)
    requires IsCore(m.content, w)
    ensures CarriesAll(LinesIn(true, BlocksOf(CleanAssistant(m).content)), [Line(true, w)])
  {
    var content := CleanAssistant(m).content;
    CoreIsPart(m.content, w);
    if content.BlockContent? {
      AssistantHoldsItsText(m);
      CarriedByBlock(true, content.blocks, TextAt(m), w);
    } else {
      TrimmedIsCore(m.content, w);
      PartOfSelf(w);
      assert content.text == m.content || content.text == w;
      CarriedByBlock(true, BlocksOf(content), 0, w);
    }
  }

  lemma SystemCarriesItsWord(m: ChatMessage, model: Model, mode: ToolLoadingMode, w: string)
    requires IsCore(m.content, w)
    ensures CarriesAll(LinesIn(false, BlocksOf(CleanSystem(m, model, mode).content)), [Line(false, w)])
  {
    CoreIsPart(m.content, w);
    var blocks := BlocksOf(CleanSystem(m, model, mode).content);
    assert |blocks| > 0 && blocks[0].kind == Text(m.content);
    CarriedByBlock(false, blocks, 0, w);
  }

  lemma UserHoldsItsText(m: ChatMessage, model: Model, mode: ToolLoadingMode)
    requires m.role.FromUser? && m.content != ""
    ensures var blocks := BlocksOf(Clean(m, model, mode).content);
      |m.media| < |blocks| && blocks[|m.media|].kind == Text(m.content)
  {
  }

  lemma CleanCarriesItsWord(m: ChatMessage, model: Model, mode: ToolLoadingMode, word: Line)
    requires Speaks(m) && IsWordOf(m, word)
    ensures CarriesAll(LinesBy(Clean(m, model, mode)), [word])
  {
    match m.role
    case FromAssistant => AssistantCarriesItsWord(m, word.text);
    case FromSystem => SystemCarriesItsWord(m, model, mode, word.text);
    case FromUser =>
      CoreIsPart(m.content, word.text);
      UserHoldsItsText(m, model, mode);
      CarriedByBlock(false, BlocksOf(Clean(m, model, mode).content), |m.media|, word.text);
  }

  lemma {:induction false} LinesOfAlike(byAssistant: bool, a: seq<Block>, b: seq<Block>)
    requires |a| == |b| && forall i :: 0 <= i < |a| ==> a[i].kind == b[i].kind
    ensures LinesIn(byAssistant, a) == LinesIn(byAssistant, b)
  {
    if a != [] {
      assert forall i :: 0 <= i < |a| - 1 ==> Init(a)[i] == a[i] && Init(b)[i] == b[i];
      LinesOfAlike(byAssistant, Init(a), Init(b));
    }
  }

  ghost predicate CarriesWordOf(m: ChatMessage, mapped: Message) {
    forall word: Line | Speaks(m) && IsWordOf(m, word) :: CarriesAll(LinesBy(mapped), [word])
  }

  lemma MappedCarriesItsWord(history: seq<ChatMessage>, model: Model, mode: ToolLoadingMode, i: nat)
    requires i < |Conversation(history)|
    ensures |Cleaned(history, model, mode)| == |Conversation(history)|
    ensures CarriesWordOf(Conversation(history)[i], Cleaned(history, model, mode)[i])
  {
    var m := Conversation(history)[i];
    var clean := Clean(m, model, mode);
    CleanedIs(history, model, mode, i);
    TaggingKeepsKinds(clean);
    LinesOfAlike(clean.role.Assistant?, BlocksOf(CacheBreakpoints.TaggedBoundary(clean).content), BlocksOf(clean.content));
    forall word: Line | Speaks(m) && IsWordOf(m, word) ensures CarriesAll(LinesBy(Cleaned(history, model, mode)[i]), [word]) {
      CleanCarriesItsWord(m, model, mode, word);
    }
  }

  ghost predicate CarryTheirWords(kept: seq<ChatMessage>, mapped: seq<Message>) {
    |kept| == |mapped| && forall i :: 0 <= i < |kept| ==> CarriesWordOf(kept[i], mapped[i])
  }

  lemma CarryBehind(kept: seq<ChatMessage>, mapped: seq<Message>, n: nat)
    requires |kept| == |mapped| && n <= |kept| && forall i :: n <= i < |kept| ==> CarriesWordOf(kept[i], mapped[i])
    ensures CarryTheirWords(kept[n..], mapped[n..])
  {
  }

  lemma CarryUpToLast(kept: seq<ChatMessage>, mapped: seq<Message>)
    requires CarryTheirWords(kept, mapped) && kept != []
    ensures mapped != [] && CarryTheirWords(Init(kept), Init(mapped)) && CarriesWordOf(Last(kept), Last(mapped))
  {
  }

  lemma OneMoreWord(front: seq<Line>, words: seq<Line>, last: seq<Line>, word: Line)
    requires CarriesAll(front, words) && AllWords(words) && CarriesAll(last, [word]) && IsWord(word.text)
    ensures CarriesAll(front + last, words + [word]) && AllWords(words + [word])
  {
    CarriesAllBoth(front, last, words, [word]);
  }

  lemma NoMoreWords(front: seq<Line>, words: seq<Line>, last: seq<Line>)
    requires CarriesAll(front, words)
    ensures CarriesAll(front + last, words)
  {
    NothingToCarry(last);
    CarriesAllBoth(front, last, words, []);
    NothingMore(words);
  }

  lemma {:induction false} MappedCarryTheirWords(kept: seq<ChatMessage>, mapped: seq<Message>, words: seq<Line>)
    requires CarryTheirWords(kept, mapped) && AreWords(kept, words)
    ensures CarriesAll(Lines(mapped), words) && AllWords(words)
  {
    if kept != [] {
      CarryUpToLast(kept, mapped);
      var front, last := Lines(Init(mapped)), LinesBy(Last(mapped));
      if Speaks(Last(kept)) {
        MappedCarryTheirWords(Init(kept), Init(mapped), Init(words));
        OneMoreWord(front, Init(words), last, Last(words));
        InitAndLast(words);
      } else {
        MappedCarryTheirWords(Init(kept), Init(mapped), words);
        NoMoreWords(front, words, last);
      }
    }
  }

  lemma {:induction false} UnknownRolesHaveNoWords(history: seq<ChatMessage>, words: seq<Line>)
    requires AreWords(history, words)
    ensures AreWords(KeptOnly(history), words)
  {
    if history != [] {
      var front, last := Init(history), Last(history);
      UnknownRolesHaveNoWords(front, if Speaks(last) then Init(words) else words);
      if last.role.FromElsewhere? {
        NothingMore(KeptOnly(front));
      } else {
        assert Init(KeptOnly(front) + [last]) == KeptOnly(front) && Last(KeptOnly(front) + [last]) == last;
      }
    }
  }

  /**
   * What the user, the assistant and the system said behind the assistant messages
   * the history starts with is in the request: each message's words, without the
   * space around them, unbroken, in order, in a text by the same speaker.
   */
  lemma EveryWordIsSent(stringify: ToolReferences.Stringify, history: seq<ChatMessage>, model: Model, mode: ToolLoadingMode, from: nat, words: seq<Line>)
    requires IsLeadingRun(history, from) && AreWords(history[from..], words)
    ensures CarriesAll(Lines(Prepared(stringify, history, model, mode)), words)
  {
    var kept, cleaned := Conversation(history), Cleaned(history, model, mode);
    var n := LeadingAssistants(cleaned);
    LeadingRunIsCut(history, model, mode, from);
    UnknownRolesHaveNoWords(history[from..], words);
    forall i | n <= i < |kept| ensures CarriesWordOf(kept[i], cleaned[i]) {
      MappedCarriesItsWord(history, model, mode, i);
    }
    CarryBehind(kept, cleaned, n);
    MappedCarryTheirWords(kept[n..], cleaned[n..], words);
    PassesKeepTheWords(stringify, cleaned, model);
  }
}
