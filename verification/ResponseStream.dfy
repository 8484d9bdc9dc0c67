/**
 * The same response read two ways: event by event while it streams, and all
 * at once from the assembled blocks. What the stream yields is folded up by
 * the router of the agent loop, which places thinking as it arrives.
 */
module ResponseStream {
  import opened Prelude
  import opened AnthropicBlocks
  import opened ThinkingLayout

  datatype Delta =
    | ThinkingDelta(thinking: string)
    | SignatureDelta(signature: string)
    | TextDelta(text: string)
    | InputDelta(json: string)
    | OtherDelta

  /** Message-level events (start, delta, stop, ping) carry no block content. */
  datatype StreamEvent = BlockStart(block: Kind) | BlockDelta(delta: Delta) | BlockStop | MessageEvent

  /** JSON parsing, left uninterpreted: None when the text does not parse. */
  type Parse = string -> Option<string>

  const EMPTY_INPUT := "{}"

  // ── The assembled blocks ──────────────────────────────────────────

  /** The blocks finished so far, the one still open, and the input JSON received for it. */
  datatype Assembly = Assembly(blocks: seq<Kind>, open: Option<Kind>, json: string)

  function Grown(open: Kind, delta: Delta): Kind {
    match delta
    case ThinkingDelta(more) => if open.Thinking? then Thinking(open.thinking + more, open.signature) else open
    case SignatureDelta(signature) => if open.Thinking? then Thinking(open.thinking, signature) else open
    case TextDelta(more) => if open.Text? then Text(open.text + more) else open
    case _ => open
  }

  function Closed(parse: Parse, open: Kind, json: string): Kind {
    if open.ToolUse? && json != "" && parse(json).Some? then ToolUse(open.id, open.name, parse(json).value) else open
  }

  function Assemble(parse: Parse, a: Assembly, event: StreamEvent): Assembly {
    match event
    case BlockStart(block) => Assembly(a.blocks, Some(block), "")
    case BlockDelta(delta) =>
      if a.open.None? then a
      else Assembly(a.blocks, Some(Grown(a.open.value, delta)), if delta.InputDelta? then a.json + delta.json else a.json)
    case BlockStop => if a.open.None? then a else Assembly(a.blocks + [Closed(parse, a.open.value, a.json)], None, "")
    case MessageEvent => a
  }

  function Assembled(parse: Parse, events: seq<StreamEvent>): Assembly {
    if events == [] then Assembly([], None, "") else Assemble(parse, Assembled(parse, Init(events)), Last(events))
  }

  /** Blocks open empty and calls are named, deltas suit the open block, and a finished input parses. */
  predicate Fits(parse: Parse, a: Assembly, event: StreamEvent) {
    match event
    case BlockStart(block) => a.open.None? &&
      (match block
       case Text(text) => text == ""
       case ToolUse(id, name, input) => id != "" && name != "" && input == EMPTY_INPUT
       case _ => true)
    case BlockDelta(delta) => a.open.Some? &&
      (match delta
       case ThinkingDelta(_) => a.open.value.Thinking?
       case SignatureDelta(_) => a.open.value.Thinking?
       case TextDelta(_) => a.open.value.Text?
       case _ => true)
    case BlockStop => a.open.Some? && (a.open.value.ToolUse? && a.json != "" ==> parse(a.json).Some?)
    case MessageEvent => true
  }

  predicate FitsSoFar(parse: Parse, events: seq<StreamEvent>) {
    events == [] || (FitsSoFar(parse, Init(events)) && Fits(parse, Assembled(parse, Init(events)), Last(events)))
  }

  /** A stream the API can send: every event fits, and no block is left open at the end. */
  predicate IsWellFormed(parse: Parse, events: seq<StreamEvent>) {
    FitsSoFar(parse, events) && Assembled(parse, events).open.None?
  }

  // ── The generator ─────────────────────────────────────────────────

  datatype Chunk =
    | TextChunk(text: string)
    | ThinkingBlockChunk(block: Kind, afterContent: bool)
    | ToolCallStart(id: string, name: string)
    | ToolCallChunk(id: string, name: string, args: string)
    | FallbackChunk(to: string)

  /** The generator's locals; `block` stands for the current block's type, name and id. */
  datatype Locals = Locals(
    block: Option<Kind>,
    codeInput: string,
    thinkingBlock: Option<Kind>,
    thinkingAfterContent: bool,
    sawContent: bool)

  const AT_FIRST := Locals(None, "", None, false, false)

  function OnStart(s: Locals, block: Kind): (Locals, seq<Chunk>) {
    var begun := s.(block := Some(block), codeInput := "");
    if IsThinking(block) then
      (begun.(thinkingBlock := Some(block), thinkingAfterContent := s.sawContent), [])
    else if block.Fallback? then
      (begun.(sawContent := false), [FallbackChunk(block.to)])
    else
      (begun.(sawContent := true),
       if block.ToolUse? && block.name != "" && block.id != "" then [ToolCallStart(block.id, block.name)] else [])
  }

  function OnDelta(s: Locals, delta: Delta): (Locals, seq<Chunk>) {
    match delta
    case ThinkingDelta(more) =>
      (if s.thinkingBlock.Some? && s.thinkingBlock.value.Thinking?
       then s.(thinkingBlock := Some(Thinking(s.thinkingBlock.value.thinking + more, s.thinkingBlock.value.signature))) else s, [])
    case SignatureDelta(signature) =>
      (if s.thinkingBlock.Some? && s.thinkingBlock.value.Thinking?
       then s.(thinkingBlock := Some(Thinking(s.thinkingBlock.value.thinking, signature))) else s, [])
    case TextDelta(text) => (s, [TextChunk(text)])
    case InputDelta(json) => (if s.block.Some? && s.block.value.ToolUse? then s.(codeInput := s.codeInput + json) else s, [])
    case OtherDelta => (s, [])
  }

  function OnStop(parse: Parse, s: Locals): (Locals, seq<Chunk>) {
    var thought :=
      if s.thinkingBlock.Some? && IsReplayable(s.thinkingBlock.value)
      then [ThinkingBlockChunk(s.thinkingBlock.value, s.thinkingAfterContent)] else [];
    var called :=
      if s.block.Some? && s.block.value.ToolUse? then
        var args := if s.codeInput != "" && parse(s.codeInput).Some? then parse(s.codeInput).value else EMPTY_INPUT;
        [ToolCallChunk(s.block.value.id, s.block.value.name, args)]
      else [];
    (s.(block := None, codeInput := "", thinkingBlock := None), thought + called)
  }

  function OnEvent(parse: Parse, s: Locals, event: StreamEvent): (Locals, seq<Chunk>) {
    match event
    case BlockStart(block) => OnStart(s, block)
    case BlockDelta(delta) => OnDelta(s, delta)
    case BlockStop => OnStop(parse, s)
    case MessageEvent => (s, [])
  }

  function Streamed(parse: Parse, events: seq<StreamEvent>): (Locals, seq<Chunk>) {
    if events == [] then (AT_FIRST, [])
    else
      var before := Streamed(parse, Init(events));
      var now := OnEvent(parse, before.0, Last(events));
      (now.0, before.1 + now.1)
  }

  /** The event loop, one variable per piece of state. */
  method GenerateTextStream(parse: Parse, events: seq<StreamEvent>) returns (chunks: seq<Chunk>)
    ensures chunks == Streamed(parse, events).1
  {
    chunks := [];
    var currentBlock: Option<Kind>, codeInput, currentThinkingBlock: Option<Kind> := None, "", None;
    var currentThinkingAfterContent, sawContent := false, false;
    for i := 0 to |events|
      invariant Streamed(parse, events[..i]) ==
        (Locals(currentBlock, codeInput, currentThinkingBlock, currentThinkingAfterContent, sawContent), chunks)
    {
      assert Init(events[..i + 1]) == events[..i];
      assert chunks + [] == chunks;
      match events[i] {
        case BlockStart(block) =>
          currentBlock, codeInput := Some(block), "";
          if IsThinking(block) {
            currentThinkingBlock, currentThinkingAfterContent := Some(block), sawContent;
          } else if block.Fallback? {
            chunks := chunks + [FallbackChunk(block.to)];
            sawContent := false;
          } else {
            sawContent := true;
            if block.ToolUse? && block.name != "" && block.id != "" {
              chunks := chunks + [ToolCallStart(block.id, block.name)];
            }
          }
        case BlockDelta(delta) =>
          if delta.TextDelta? {
            chunks := chunks + [TextChunk(delta.text)];
          } else if delta.InputDelta? && currentBlock.Some? && currentBlock.value.ToolUse? {
            codeInput := codeInput + delta.json;
          } else if currentThinkingBlock.Some? && currentThinkingBlock.value.Thinking? {
            var open := currentThinkingBlock.value;
            if delta.ThinkingDelta? {
              currentThinkingBlock := Some(Thinking(open.thinking + delta.thinking, open.signature));
            } else if delta.SignatureDelta? {
              currentThinkingBlock := Some(Thinking(open.thinking, delta.signature));
            }
          }
        case BlockStop =>
          var thought, called: seq<Chunk> := [], [];
          if currentThinkingBlock.Some? && IsReplayable(currentThinkingBlock.value) {
            thought := [ThinkingBlockChunk(currentThinkingBlock.value, currentThinkingAfterContent)];
          }
          currentThinkingBlock := None;
          if currentBlock.Some? && currentBlock.value.ToolUse? {
            var parsed := parse(codeInput);
            var args := if codeInput != "" && parsed.Some? then parsed.value else EMPTY_INPUT;
            called := [ToolCallChunk(currentBlock.value.id, currentBlock.value.name, args)];
          }
          chunks := chunks + (thought + called);
          currentBlock, codeInput := None, "";
        case MessageEvent =>
      }
    }
    assert events[..|events|] == events;
  }

  // ── The router ────────────────────────────────────────────────────

  datatype Pass = Pass(text: string, thinkingBlocks: seq<StoredThinking>, toolCalls: seq<ToolCall>)

  /** Trailing thinking is anchored when a call starts; a fallback drops the declining model's thinking and calls. */
  function Route(p: Pass, chunk: Chunk): Pass {
    match chunk
    case TextChunk(text) => p.(text := p.text + text)
    case ThinkingBlockChunk(block, afterContent) => p.(thinkingBlocks := p.thinkingBlocks + [StoredThinking(block, "", afterContent)])
    case ToolCallStart(id, _) => p.(thinkingBlocks := Anchored(p.thinkingBlocks, id))
    case ToolCallChunk(id, name, args) => p.(toolCalls := p.toolCalls + [ToolCall(id, name, args)])
    case FallbackChunk(_) => p.(thinkingBlocks := [], toolCalls := [])
  }

  function Routed(p: Pass, chunks: seq<Chunk>): Pass {
    if chunks == [] then p else Route(Routed(p, Init(chunks)), Last(chunks))
  }

  function FromStream(parse: Parse, events: seq<StreamEvent>): Pass {
    Routed(Pass("", [], []), Streamed(parse, events).1)
  }

  function FromBlocks(parse: Parse, events: seq<StreamEvent>): Pass {
    AsPass(Extract(Assembled(parse, events).blocks))
  }

  function AsPass(e: Extracted): Pass {
    Pass(e.text, e.thinkingBlocks, e.toolCalls)
  }

  // ── Block by block, the stream is a fold too ──────────────────────

  /** What a finished block means to the stream: a fallback starts over, keeping only the text. */
  function Live(e: Extracted, kind: Kind): Extracted {
    if kind.Fallback? then Extracted(e.text, [], [], false) else Take(e, kind, false)
  }

  function LiveAll(kinds: seq<Kind>): Extracted {
    if kinds == [] then NOTHING else Live(LiveAll(Init(kinds)), Last(kinds))
  }

  /** What has reached the router while `open` is still streaming. */
  function WhileOpen(e: Extracted, open: Kind): Extracted {
    if IsThinking(open) then e
    else if open.ToolUse? then Extracted(e.text, Anchored(e.thinkingBlocks, open.id), e.toolCalls, true)
    else Live(e, open)
  }

  ghost predicate InStep(s: Locals, p: Pass, a: Assembly) {
    var e := LiveAll(a.blocks);
    match a.open
    case None =>
      p == AsPass(e) && s.sawContent == e.sawContent && s.thinkingBlock.None? && s.block.None?
    case Some(open) =>
      && p == AsPass(WhileOpen(e, open)) && s.sawContent == WhileOpen(e, open).sawContent
      && (if IsThinking(open) then s.thinkingBlock == Some(open) && s.thinkingAfterContent == e.sawContent else s.thinkingBlock.None?)
      && s.block.Some? && s.block.value.ToolUse? == open.ToolUse?
      && (open.ToolUse? ==> s.block == Some(open) && s.codeInput == a.json && open.input == EMPTY_INPUT)
  }

  lemma {:induction false} RoutedAppends(p: Pass, a: seq<Chunk>, b: seq<Chunk>)
    ensures Routed(p, a + b) == Routed(Routed(p, a), b)
  {
    if b == [] {
      assert a + b == a;
    } else {
      RoutedAppends(p, a, Init(b));
      assert Init(a + b) == a + Init(b) && Last(a + b) == Last(b);
    }
  }

  lemma RoutedOne(p: Pass, chunk: Chunk)
    ensures Routed(p, [chunk]) == Route(p, chunk)
  {
    assert Init([chunk]) == [];
  }

  lemma StartStaysInStep(parse: Parse, s: Locals, p: Pass, a: Assembly, block: Kind)
    requires InStep(s, p, a) && Fits(parse, a, BlockStart(block))
    ensures var now := OnStart(s, block); InStep(now.0, Routed(p, now.1), Assemble(parse, a, BlockStart(block)))
  {
    var now := OnStart(s, block);
    if now.1 != [] {
      RoutedOne(p, now.1[0]);
    }
    if block.Text? {
      assert p.text + "" == p.text;
    }
  }

  lemma DeltaStaysInStep(parse: Parse, s: Locals, p: Pass, a: Assembly, delta: Delta)
    requires InStep(s, p, a) && Fits(parse, a, BlockDelta(delta))
    ensures var now := OnDelta(s, delta); InStep(now.0, Routed(p, now.1), Assemble(parse, a, BlockDelta(delta)))
  {
    if delta.TextDelta? {
      RoutedOne(p, TextChunk(delta.text));
      assert LiveAll(a.blocks).text + a.open.value.text + delta.text == LiveAll(a.blocks).text + (a.open.value.text + delta.text);
    }
  }

  lemma StopStaysInStep(parse: Parse, s: Locals, p: Pass, a: Assembly)
    requires InStep(s, p, a) && Fits(parse, a, BlockStop)
    ensures var now := OnStop(parse, s); InStep(now.0, Routed(p, now.1), Assemble(parse, a, BlockStop))
  {
    var now := OnStop(parse, s);
    var open := a.open.value;
    var closed := Closed(parse, open, a.json);
    assert Init(a.blocks + [closed]) == a.blocks;
    if now.1 != [] {
      assert now.1 == [now.1[0]];
      RoutedOne(p, now.1[0]);
    }
  }

  lemma {:induction false} StreamIsLiveFold(parse: Parse, events: seq<StreamEvent>)
    requires FitsSoFar(parse, events)
    ensures InStep(Streamed(parse, events).0, FromStream(parse, events), Assembled(parse, events))
  {
    if events != [] {
      var before, last := Init(events), Last(events);
      var s, p, a := Streamed(parse, before), FromStream(parse, before), Assembled(parse, before);
      StreamIsLiveFold(parse, before);
      RoutedAppends(Pass("", [], []), s.1, OnEvent(parse, s.0, last).1);
      match last
      case BlockStart(block) => StartStaysInStep(parse, s.0, p, a, block);
      case BlockDelta(delta) => DeltaStaysInStep(parse, s.0, p, a, delta);
      case BlockStop => StopStaysInStep(parse, s.0, p, a);
      case MessageEvent =>
    }
  }

  // ── Stream against batch ──────────────────────────────────────────

  /** Text of a declined part; a fallback adds none. */
  function TextOf(kinds: seq<Kind>): string {
    if kinds == [] then "" else TextOf(Init(kinds)) + (if Last(kinds).Text? then Last(kinds).text else "")
  }

  /** The batch extractor remembers content from before the last fallback: any block but thinking, calls and fallbacks. */
  predicate IsContent(kind: Kind) {
    !IsThinking(kind) && !kind.ToolUse? && !kind.Fallback?
  }

  predicate HasContent(kinds: seq<Kind>) {
    exists i :: 0 <= i < |kinds| && IsContent(kinds[i])
  }

  /** A replayable thinking block comes before any text, call or other content. */
  predicate OpensWithThinking(kinds: seq<Kind>) {
    exists i :: 0 <= i < |kinds| && IsReplayable(kinds[i]) && forall j :: 0 <= j < i ==> IsThinking(kinds[j])
  }

  lemma {:induction false} DeclinedInBatch(kinds: seq<Kind>)
    ensures TakeAll(NOTHING, kinds, true) == Extracted(TextOf(kinds), [], [], HasContent(kinds))
  {
    if kinds != [] {
      var front := Init(kinds);
      DeclinedInBatch(front);
      assert kinds == front + [Last(kinds)];
      assert HasContent(kinds) <==> HasContent(front) || IsContent(Last(kinds)) by {
        assert kinds[|kinds| - 1] == Last(kinds);
        assert forall i :: 0 <= i < |front| ==> front[i] == kinds[i];
      }
    }
  }

  lemma {:induction false} LiveKeepsText(kinds: seq<Kind>)
    ensures LiveAll(kinds).text == TextOf(kinds)
  {
    if kinds != [] {
      LiveKeepsText(Init(kinds));
    }
  }

  lemma {:induction false} LiveAfterFallback(declined: seq<Kind>, fallback: Kind, answered: seq<Kind>)
    requires fallback.Fallback? && forall i :: 0 <= i < |answered| ==> !answered[i].Fallback?
    ensures LiveAll(declined + [fallback] + answered) == TakeAll(Extracted(TextOf(declined), [], [], false), answered, false)
  {
    var kinds := declined + [fallback] + answered;
    if answered == [] {
      assert Init(kinds) == declined && Last(kinds) == fallback;
      LiveKeepsText(declined);
    } else {
      assert answered[|answered| - 1] == Last(answered);
      LiveAfterFallback(declined, fallback, Init(answered));
      assert Init(kinds) == declined + [fallback] + Init(answered) && Last(kinds) == Last(answered);
    }
  }

  lemma {:induction false} LiveWithoutFallback(kinds: seq<Kind>)
    requires forall i :: 0 <= i < |kinds| ==> !kinds[i].Fallback?
    ensures LiveAll(kinds) == TakeAll(NOTHING, kinds, false)
  {
    if kinds != [] {
      assert kinds[|kinds| - 1] == Last(kinds);
      LiveWithoutFallback(Init(kinds));
    }
  }

  /** Both readings take the answering model's blocks; they differ in whether content came before. */
  function Start(text: string, sawContent: bool): Extracted {
    Extracted(text, [], [], sawContent)
  }

  lemma BatchTakesTheAnswer(kinds: seq<Kind>)
    ensures Extract(kinds) == TakeAll(Start(TextOf(Declined(kinds)), HasContent(Declined(kinds))), Answered(kinds), false)
  {
    DeclinedInBatch(Declined(kinds));
  }

  lemma CutAtFallback(kinds: seq<Kind>)
    requires LastFallback(kinds) >= 0
    ensures kinds == Declined(kinds) + [kinds[LastFallback(kinds)]] + Answered(kinds)
  {
  }

  lemma LiveTakesTheAnswer(kinds: seq<Kind>)
    ensures LiveAll(kinds) == TakeAll(Start(TextOf(Declined(kinds)), false), Answered(kinds), false)
  {
    if LastFallback(kinds) < 0 {
      assert Answered(kinds) == kinds;
      LiveWithoutFallback(kinds);
    } else {
      CutAtFallback(kinds);
      LiveAfterFallback(Declined(kinds), kinds[LastFallback(kinds)], Answered(kinds));
    }
  }

  /** Before any content, the readings hold the same blocks, marked differently. */
  ghost predicate OnlyMarksDiffer(anew: Extracted, late: Extracted) {
    && anew.text == late.text && anew.toolCalls == late.toolCalls == [] && !anew.sawContent && late.sawContent
    && |anew.thinkingBlocks| == |late.thinkingBlocks|
    && forall i :: 0 <= i < |anew.thinkingBlocks| ==>
         anew.thinkingBlocks[i] == StoredThinking(late.thinkingBlocks[i].kind, "", false) && late.thinkingBlocks[i].trailing
  }

  lemma {:induction false} ThinkingOnlyMarks(text: string, kinds: seq<Kind>)
    requires forall i :: 0 <= i < |kinds| ==> IsThinking(kinds[i])
    ensures OnlyMarksDiffer(TakeAll(Start(text, false), kinds, false), TakeAll(Start(text, true), kinds, false))
    ensures TakeAll(Start(text, false), kinds, false).thinkingBlocks == [] <==> forall i :: 0 <= i < |kinds| ==> !IsReplayable(kinds[i])
  {
    if kinds != [] {
      var front, last := Init(kinds), kinds[|kinds| - 1];
      assert kinds == front + [last];
      ThinkingOnlyMarks(text, front);
    }
  }

  /** The first blocks' placements, once different, are never the same again. */
  ghost predicate FirstIsPlacedDifferently(anew: Extracted, late: Extracted) {
    && anew.thinkingBlocks != [] && late.thinkingBlocks != []
    && anew.thinkingBlocks[0].beforeToolCallId == "" && !anew.thinkingBlocks[0].trailing
    && (late.thinkingBlocks[0].beforeToolCallId != "" || late.thinkingBlocks[0].trailing)
  }

  lemma {:induction false} DifferenceStays(anew: Extracted, late: Extracted, kinds: seq<Kind>)
    requires FirstIsPlacedDifferently(anew, late)
    requires forall i :: 0 <= i < |kinds| && kinds[i].ToolUse? ==> kinds[i].id != ""
    ensures FirstIsPlacedDifferently(TakeAll(anew, kinds, false), TakeAll(late, kinds, false))
  {
    if kinds != [] {
      var front, last := Init(kinds), kinds[|kinds| - 1];
      assert kinds == front + [last];
      DifferenceStays(anew, late, front);
      if last.ToolUse? {
        AnchoredAt(TakeAll(anew, front, false).thinkingBlocks, last.id);
        AnchoredAt(TakeAll(late, front, false).thinkingBlocks, last.id);
      }
    }
  }

  /** How many blocks come before the first text, call or other content. */
  function ThinkingPrefix(kinds: seq<Kind>): (n: nat)
    ensures n <= |kinds| && (forall i :: 0 <= i < n ==> IsThinking(kinds[i]))
    ensures n < |kinds| ==> !IsThinking(kinds[n])
  {
    if kinds == [] || !IsThinking(kinds[0]) then 0 else 1 + ThinkingPrefix(kinds[1..])
  }

  lemma SameOnceContentComes(anew: Extracted, late: Extracted, kinds: seq<Kind>)
    requires OnlyMarksDiffer(anew, late) && anew.thinkingBlocks == []
    requires kinds != [] ==> !IsThinking(kinds[0]) && !kinds[0].Fallback?
    ensures AsPass(TakeAll(anew, kinds, false)) == AsPass(TakeAll(late, kinds, false))
  {
    if kinds != [] {
      assert kinds == [kinds[0]] + kinds[1..];
      TakeAllAppends(anew, [kinds[0]], kinds[1..], false);
      TakeAllAppends(late, [kinds[0]], kinds[1..], false);
      assert Init([kinds[0]]) == [];
    }
  }

  lemma OpeningThinking(kinds: seq<Kind>)
    ensures OpensWithThinking(kinds) <==> exists i :: 0 <= i < ThinkingPrefix(kinds) && IsReplayable(kinds[i])
  {
  }

  lemma OpensWhenTaken(text: string, kinds: seq<Kind>)
    ensures OpensWithThinking(kinds)
       <==> TakeAll(Start(text, false), kinds[..ThinkingPrefix(kinds)], false).thinkingBlocks != []
  {
    var front := kinds[..ThinkingPrefix(kinds)];
    ThinkingOnlyMarks(text, front);
    OpeningThinking(kinds);
    assert forall i :: 0 <= i < |front| ==> front[i] == kinds[i];
  }

  /** Behind leading thinking: the readings differ exactly if any of it was taken. */
  lemma LeadingThinkingDecides(text: string, front: seq<Kind>, back: seq<Kind>)
    requires forall i :: 0 <= i < |front| ==> IsThinking(front[i])
    requires back != [] ==> !IsThinking(back[0]) && !back[0].Fallback?
    requires forall i :: 0 <= i < |back| && back[i].ToolUse? ==> back[i].id != ""
    ensures AsPass(TakeAll(Start(text, false), front + back, false)) == AsPass(TakeAll(Start(text, true), front + back, false))
       <==> TakeAll(Start(text, false), front, false).thinkingBlocks == []
  {
    var anew, late := TakeAll(Start(text, false), front, false), TakeAll(Start(text, true), front, false);
    ThinkingOnlyMarks(text, front);
    TakeAllAppends(Start(text, false), front, back, false);
    TakeAllAppends(Start(text, true), front, back, false);
    if anew.thinkingBlocks == [] {
      SameOnceContentComes(anew, late, back);
    } else {
      DifferenceStays(anew, late, back);
    }
  }

  /** Content before the answer matters exactly when the answer opens with replayable thinking. */
  lemma EarlierContentMattersToThinking(text: string, kinds: seq<Kind>)
    requires forall i :: 0 <= i < |kinds| ==> !kinds[i].Fallback? && (kinds[i].ToolUse? ==> kinds[i].id != "")
    ensures AsPass(TakeAll(Start(text, false), kinds, false)) == AsPass(TakeAll(Start(text, true), kinds, false)) <==> !OpensWithThinking(kinds)
  {
    OpensWhenTaken(text, kinds);
    LeadingThinkingDecides(text, kinds[..ThinkingPrefix(kinds)], kinds[ThinkingPrefix(kinds)..]);
    SplitAt(kinds, ThinkingPrefix(kinds));
  }

  lemma {:induction false} AssembledIdsAreNamed(parse: Parse, events: seq<StreamEvent>)
    requires FitsSoFar(parse, events)
    ensures var a := Assembled(parse, events);
      && (forall i :: 0 <= i < |a.blocks| && a.blocks[i].ToolUse? ==> a.blocks[i].id != "")
      && (a.open.Some? && a.open.value.ToolUse? ==> a.open.value.id != "")
  {
    if events != [] {
      AssembledIdsAreNamed(parse, Init(events));
    }
  }

  /** A finished stream, routed, is the live reading of its blocks. */
  lemma FinishedStreamIsLive(parse: Parse, events: seq<StreamEvent>)
    requires IsWellFormed(parse, events)
    ensures FromStream(parse, events) == AsPass(LiveAll(Assembled(parse, events).blocks))
  {
    StreamIsLiveFold(parse, events);
  }

  /** The answer is named like the whole, and no fallback is in it. */
  lemma AnsweredIsProper(kinds: seq<Kind>)
    requires forall i :: 0 <= i < |kinds| && kinds[i].ToolUse? ==> kinds[i].id != ""
    ensures var answered := Answered(kinds);
      forall i :: 0 <= i < |answered| ==> !answered[i].Fallback? && (answered[i].ToolUse? ==> answered[i].id != "")
  {
  }

  lemma AnswerMatches(text: string, declinedContent: bool, answered: seq<Kind>)
    requires forall i :: 0 <= i < |answered| ==> !answered[i].Fallback? && (answered[i].ToolUse? ==> answered[i].id != "")
    ensures AsPass(TakeAll(Start(text, false), answered, false)) == AsPass(TakeAll(Start(text, declinedContent), answered, false))
       <==> !(declinedContent && OpensWithThinking(answered))
  {
    if declinedContent {
      EarlierContentMattersToThinking(text, answered);
    }
  }

  lemma BothTakeTheAnswer(kinds: seq<Kind>)
    ensures AsPass(LiveAll(kinds)) == AnswerRead(kinds, false)
    ensures AsPass(Extract(kinds)) == AnswerRead(kinds, HasContent(Declined(kinds)))
  {
    LiveTakesTheAnswer(kinds);
    BatchTakesTheAnswer(kinds);
  }

  /** The answer as read with or without content before it. */
  function AnswerRead(kinds: seq<Kind>, sawContent: bool): Pass {
    AsPass(TakeAll(Start(TextOf(Declined(kinds)), sawContent), Answered(kinds), false))
  }

  lemma ReadingsOfTheAnswer(kinds: seq<Kind>)
    requires forall i :: 0 <= i < |kinds| && kinds[i].ToolUse? ==> kinds[i].id != ""
    ensures AnswerRead(kinds, false) == AnswerRead(kinds, HasContent(Declined(kinds)))
       <==> !(HasContent(Declined(kinds)) && OpensWithThinking(Answered(kinds)))
  {
    AnsweredIsProper(kinds);
    AnswerMatches(TextOf(Declined(kinds)), HasContent(Declined(kinds)), Answered(kinds));
  }

  /** The live reading of any blocks against the batch reading. */
  lemma LiveMatchesBatch(kinds: seq<Kind>)
    requires forall i :: 0 <= i < |kinds| && kinds[i].ToolUse? ==> kinds[i].id != ""
    ensures AsPass(LiveAll(kinds)) == AsPass(Extract(kinds)) <==> !(HasContent(Declined(kinds)) && OpensWithThinking(Answered(kinds)))
  {
    BothTakeTheAnswer(kinds);
    ReadingsOfTheAnswer(kinds);
  }

  /**
   * Reading the stream and reading the finished blocks give the same text,
   * thinking with the same placement, and calls, unless a model that declined
   * left content and the model that answered opens with thinking.
   */
  lemma StreamMatchesBatch(parse: Parse, events: seq<StreamEvent>)
    requires IsWellFormed(parse, events)
    ensures var kinds := Assembled(parse, events).blocks;
      FromStream(parse, events) == FromBlocks(parse, events) <==> !(HasContent(Declined(kinds)) && OpensWithThinking(Answered(kinds)))
  {
    FinishedStreamIsLive(parse, events);
    AssembledIdsAreNamed(parse, events);
    LiveMatchesBatch(Assembled(parse, events).blocks);
  }

  lemma NothingDeclined(kinds: seq<Kind>)
    requires forall i :: 0 <= i < |kinds| ==> !kinds[i].Fallback?
    ensures Declined(kinds) == []
  {
  }

  /** In particular whenever no fallback took over. */
  lemma StreamMatchesBatchWithoutFallback(parse: Parse, events: seq<StreamEvent>)
    requires IsWellFormed(parse, events)
    requires forall i :: 0 <= i < |Assembled(parse, events).blocks| ==> !Assembled(parse, events).blocks[i].Fallback?
    ensures FromStream(parse, events) == FromBlocks(parse, events)
  {
    StreamMatchesBatch(parse, events);
    NothingDeclined(Assembled(parse, events).blocks);
  }

  lemma LiveTextAndCallsMatch(kinds: seq<Kind>)
    ensures LiveAll(kinds).text == Extract(kinds).text && LiveAll(kinds).toolCalls == Extract(kinds).toolCalls
  {
    LiveTakesTheAnswer(kinds);
    BatchTakesTheAnswer(kinds);
    MarksNeverChangeTextOrCalls(TextOf(Declined(kinds)), Answered(kinds), HasContent(Declined(kinds)));
  }

  /** Text and calls agree always, fallbacks or not. */
  lemma TextAndCallsAlwaysMatch(parse: Parse, events: seq<StreamEvent>)
    requires IsWellFormed(parse, events)
    ensures FromStream(parse, events).text == FromBlocks(parse, events).text
    ensures FromStream(parse, events).toolCalls == FromBlocks(parse, events).toolCalls
  {
    FinishedStreamIsLive(parse, events);
    LiveTextAndCallsMatch(Assembled(parse, events).blocks);
  }

  lemma {:induction false} MarksNeverChangeTextOrCalls(text: string, kinds: seq<Kind>, sawContent: bool)
    ensures TakeAll(Start(text, false), kinds, false).text == TakeAll(Start(text, sawContent), kinds, false).text
    ensures TakeAll(Start(text, false), kinds, false).toolCalls == TakeAll(Start(text, sawContent), kinds, false).toolCalls
  {
    if kinds != [] {
      MarksNeverChangeTextOrCalls(text, Init(kinds), sawContent);
    }
  }

  /** A response on which the two readings part: text, a fallback, then signed thinking. */
  lemma FallbackAfterTextParts(parse: Parse, to: string, thinking: Kind)
    requires IsReplayable(thinking)
    ensures var events := [BlockStart(Text("")), BlockDelta(TextDelta("so")), BlockStop, BlockStart(Fallback(to)), BlockStop, BlockStart(thinking), BlockStop];
      && IsWellFormed(parse, events)
      && FromStream(parse, events) != FromBlocks(parse, events)
  {
    var kinds := [Text("so"), Fallback(to), thinking];
    var events := [BlockStart(Text("")), BlockDelta(TextDelta("so")), BlockStop, BlockStart(Fallback(to)), BlockStop, BlockStart(thinking), BlockStop];
    ExampleAssembles(parse, to, thinking);
    StreamMatchesBatch(parse, events);
    assert LastFallback(kinds) == 1 by {
      assert Init(kinds) == [Text("so"), Fallback(to)];
    }
    assert Declined(kinds)[0] == Text("so") && Answered(kinds)[0] == thinking;
  }

  lemma ExampleAssembles(parse: Parse, to: string, thinking: Kind)
    requires IsReplayable(thinking)
    ensures var events := [BlockStart(Text("")), BlockDelta(TextDelta("so")), BlockStop, BlockStart(Fallback(to)), BlockStop, BlockStart(thinking), BlockStop];
      IsWellFormed(parse, events) && Assembled(parse, events).blocks == [Text("so"), Fallback(to), thinking]
  {
    var e1 := [BlockStart(Text(""))];
    var e2 := e1 + [BlockDelta(TextDelta("so"))];
    var e3 := e2 + [BlockStop];
    var e4 := e3 + [BlockStart(Fallback(to))];
    var e5 := e4 + [BlockStop];
    var e6 := e5 + [BlockStart(thinking)];
    var e7 := e6 + [BlockStop];
    assert Init(e1) == [] && Init(e2) == e1 && Init(e3) == e2 && Init(e4) == e3 && Init(e5) == e4 && Init(e6) == e5 && Init(e7) == e6;
    assert "" + "so" == "so";
    assert Assembled(parse, e1) == Assembly([], Some(Text("")), "");
    assert Assembled(parse, e3) == Assembly([Text("so")], None, "");
    assert Assembled(parse, e5) == Assembly([Text("so"), Fallback(to)], None, "");
    assert Assembled(parse, e7) == Assembly([Text("so"), Fallback(to), thinking], None, "");
    assert FitsSoFar(parse, e1) && FitsSoFar(parse, e2) && FitsSoFar(parse, e3) && FitsSoFar(parse, e4);
    assert FitsSoFar(parse, e5) && FitsSoFar(parse, e6) && FitsSoFar(parse, e7);
    assert e7 == [BlockStart(Text("")), BlockDelta(TextDelta("so")), BlockStop, BlockStart(Fallback(to)), BlockStop, BlockStart(thinking), BlockStop];
  }
}
