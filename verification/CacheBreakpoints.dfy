/**
 * Prompt-cache breakpoints: at most four `cache_control` marks on a request,
 * on the last loaded tool, the system prompt, the turn boundary and the last
 * block that takes one. They must not change what the request says.
 */
module CacheBreakpoints {
  import opened Prelude
  import opened AnthropicBlocks

  datatype Tool = Tool(definition: string, deferred: bool, cached: bool)

  datatype SystemField = NoSystem | PlainSystem(text: string) | BlockSystem(blocks: seq<Block>)

  datatype Payload = Payload(tools: seq<Tool>, system: SystemField, messages: seq<Message>)

  /** Where a mark goes: block `block` of message `message`. */
  datatype Position = Position(message: nat, block: nat)

  /** Never thinking, never text without anything in it. */
  predicate AcceptsCacheControl(kind: Kind) {
    !IsThinking(kind) && !(kind.Text? && IsBlank(kind.text))
  }

  function LastAccepting(blocks: seq<Block>): (at: int)
    ensures -1 <= at < |blocks|
    ensures at >= 0 ==> AcceptsCacheControl(blocks[at].kind)
    ensures forall i :: at < i < |blocks| ==> !AcceptsCacheControl(blocks[i].kind)
  {
    if blocks == [] then -1
    else if AcceptsCacheControl(Last(blocks).kind) then |blocks| - 1
    else LastAccepting(Init(blocks))
  }

  method FindLastAccepting(blocks: seq<Block>) returns (at: int)
    ensures at == LastAccepting(blocks)
  {
    at := |blocks| - 1;
    while at >= 0 && !AcceptsCacheControl(blocks[at].kind)
      invariant -1 <= at < |blocks|
      invariant forall i :: at < i < |blocks| ==> !AcceptsCacheControl(blocks[i].kind)
    {
      at := at - 1;
    }
  }

  // ── The tag ───────────────────────────────────────────────────────

  /** The message just before this turn's injected context: its last block that takes a mark is tagged. */
  function TaggedBoundary(message: Message): Message {
    if message.content.PlainContent? && IsBlank(message.content.text) then message
    else
      var blocks := BlocksOf(message.content);
      var at := LastAccepting(blocks);
      message.(content := BlockContent(if at < 0 then blocks else blocks[at := blocks[at].(boundary := true)]))
  }

  method TagCacheBoundary(message: Message) returns (tagged: Message)
    ensures tagged == TaggedBoundary(message)
  {
    tagged := message;
    if message.content.PlainContent? {
      if IsBlank(message.content.text) {
        return;
      }
      tagged := tagged.(content := BlockContent([Block(Text(message.content.text))]));
    }
    var blocks := tagged.content.blocks;
    var at := FindLastAccepting(blocks);
    if at >= 0 {
      tagged := tagged.(content := BlockContent(blocks[at := blocks[at].(boundary := true)]));
    }
  }

  // ── The marks ─────────────────────────────────────────────────────

  function LastLoaded(tools: seq<Tool>): (at: int)
    ensures -1 <= at < |tools|
    ensures at >= 0 ==> !tools[at].deferred
    ensures forall i :: at < i < |tools| ==> tools[i].deferred
  {
    if tools == [] then -1 else if !Last(tools).deferred then |tools| - 1 else LastLoaded(Init(tools))
  }

  function MarkedTools(tools: seq<Tool>): seq<Tool> {
    var at := LastLoaded(tools);
    if at < 0 then tools else tools[at := tools[at].(cached := true)]
  }

  function MarkedSystem(system: SystemField): SystemField {
    if system.PlainSystem? && !IsBlank(system.text) then BlockSystem([Block(Text(system.text), false, true)]) else system
  }

  predicate IsPosition(messages: seq<Message>, p: Position) {
    p.message < |messages| && p.block < |BlocksOf(messages[p.message].content)|
  }

  function MarkedAt(messages: seq<Message>, p: Position): seq<Message>
    requires IsPosition(messages, p)
  {
    var blocks := BlocksOf(messages[p.message].content);
    messages[p.message := messages[p.message].(content := BlockContent(blocks[p.block := blocks[p.block].(cached := true)]))]
  }

  function FirstTagged(blocks: seq<Block>): (at: int)
    ensures -1 <= at < |blocks|
    ensures at >= 0 ==> blocks[at].boundary && forall i :: 0 <= i < at ==> !blocks[i].boundary
    ensures at < 0 ==> forall i :: 0 <= i < |blocks| ==> !blocks[i].boundary
  {
    if blocks == [] then -1
    else if blocks[0].boundary then 0
    else
      var rest := FirstTagged(blocks[1..]);
      if rest < 0 then -1 else rest + 1
  }

  /** The first tagged block of the messages whose content is a list, from message `from` on. */
  function BoundaryFrom(messages: seq<Message>, from: nat): (p: Option<Position>)
    ensures p.Some? ==> IsPosition(messages, p.value) && messages[p.value.message].content.BlockContent?
    decreases |messages| - from
  {
    if from >= |messages| then None
    else if messages[from].content.BlockContent? && FirstTagged(messages[from].content.blocks) >= 0 then
      Some(Position(from, FirstTagged(messages[from].content.blocks)))
    else BoundaryFrom(messages, from + 1)
  }

  function BlockAt(messages: seq<Message>, p: Position): Block
    requires IsPosition(messages, p)
  {
    BlocksOf(messages[p.message].content)[p.block]
  }

  /** The tagged block takes the mark unless it has one or cannot. */
  function BoundaryMark(messages: seq<Message>): (p: Option<Position>)
    ensures p.Some? ==> IsPosition(messages, p.value) && AcceptsCacheControl(BlockAt(messages, p.value).kind)
  {
    var found := BoundaryFrom(messages, 0);
    if found.Some? && !BlockAt(messages, found.value).cached && AcceptsCacheControl(BlockAt(messages, found.value).kind) then found
    else None
  }

  /** The last message that is not turn-scoped, or the first. */
  function MovingMessage(messages: seq<Message>): (at: nat)
    requires messages != []
    ensures at < |messages| && (at > 0 ==> !messages[at].turnScoped)
    ensures forall i :: at < i < |messages| ==> messages[i].turnScoped
  {
    if |messages| > 1 && Last(messages).turnScoped then MovingMessage(Init(messages)) else |messages| - 1
  }

  function MovingMark(messages: seq<Message>): (p: Option<Position>)
    requires messages != []
    ensures p.Some? ==> IsPosition(messages, p.value) && AcceptsCacheControl(BlockAt(messages, p.value).kind)
  {
    var m := MovingMessage(messages);
    var at := LastAccepting(BlocksOf(messages[m].content));
    if at < 0 then None else Some(Position(m, at))
  }

  function MarkedMaybe(messages: seq<Message>, p: Option<Position>): seq<Message>
    requires p.Some? ==> IsPosition(messages, p.value)
  {
    if p.Some? then MarkedAt(messages, p.value) else messages
  }

  function MarkedMessages(messages: seq<Message>): seq<Message> {
    if messages == [] then [] else
      var atBoundary := MarkedMaybe(messages, BoundaryMark(messages));
      MarkedMaybe(atBoundary, MovingMark(atBoundary))
  }

  function Marked(payload: Payload): Payload {
    Payload(MarkedTools(payload.tools), MarkedSystem(payload.system), MarkedMessages(payload.messages))
  }

  /** Edits the payload field by field; a string that takes a mark becomes its one text block. */
  method ApplyCacheBreakpoints(payload: Payload) returns (marked: Payload)
    ensures marked == Marked(payload)
  {
    marked := payload;
    var markIndex := |payload.tools| - 1;
    while markIndex >= 0 && payload.tools[markIndex].deferred
      invariant -1 <= markIndex < |payload.tools|
      invariant forall i :: markIndex < i < |payload.tools| ==> payload.tools[i].deferred
    {
      markIndex := markIndex - 1;
    }
    if markIndex >= 0 {
      marked := marked.(tools := payload.tools[markIndex := payload.tools[markIndex].(cached := true)]);
    }
    if payload.system.PlainSystem? && !IsBlank(payload.system.text) {
      marked := marked.(system := BlockSystem([Block(Text(payload.system.text), false, true)]));
    }
    if payload.messages == [] {
      return;
    }
    var messages := MarkCacheBoundary(payload.messages);
    messages := MarkLastMessage(messages);
    marked := marked.(messages := messages);
  }

  /** The moving mark: past turn-scoped messages, then past blocks that take none. */
  method MarkLastMessage(messages: seq<Message>) returns (marked: seq<Message>)
    requires messages != []
    ensures marked == MarkedMaybe(messages, MovingMark(messages))
  {
    marked := messages;
    var lastIndex := |messages| - 1;
    while lastIndex > 0 && messages[lastIndex].turnScoped
      invariant 0 <= lastIndex < |messages|
      invariant forall i :: lastIndex < i < |messages| ==> messages[i].turnScoped
    {
      lastIndex := lastIndex - 1;
    }
    var lastMessage := messages[lastIndex];
    if lastMessage.content.PlainContent? {
      var one := [Block(Text(lastMessage.content.text))];
      assert Init(one) == [] && one[0 := one[0].(cached := true)] == [Block(Text(lastMessage.content.text), false, true)];
      if !IsBlank(lastMessage.content.text) {
        marked := messages[lastIndex := lastMessage.(content := BlockContent([Block(Text(lastMessage.content.text), false, true)]))];
      }
    } else {
      var blocks := lastMessage.content.blocks;
      var blockIndex := FindLastAccepting(blocks);
      if blockIndex >= 0 {
        marked := messages[lastIndex := lastMessage.(content := BlockContent(blocks[blockIndex := blocks[blockIndex].(cached := true)]))];
      }
    }
  }

  method MarkCacheBoundary(messages: seq<Message>) returns (marked: seq<Message>)
    ensures marked == MarkedMaybe(messages, BoundaryMark(messages))
  {
    marked := messages;
    for m := 0 to |messages|
      invariant marked == messages && BoundaryFrom(messages, 0) == BoundaryFrom(messages, m)
    {
      if messages[m].content.PlainContent? {
        continue;
      }
      var blocks := messages[m].content.blocks;
      for b := 0 to |blocks|
        invariant marked == messages && forall i :: 0 <= i < b ==> !blocks[i].boundary
      {
        if !blocks[b].boundary {
          continue;
        }
        assert BoundaryFrom(messages, m) == Some(Position(m, b));
        if !blocks[b].cached && AcceptsCacheControl(blocks[b].kind) {
          marked := messages[m := messages[m].(content := BlockContent(blocks[b := blocks[b].(cached := true)]))];
        }
        return;
      }
    }
  }

  // ── The request says the same ─────────────────────────────────────

  function Bare(blocks: seq<Block>): seq<Block> {
    seq(|blocks|, i requires 0 <= i < |blocks| => blocks[i].(cached := false))
  }

  function BareMessage(message: Message): Message {
    message.(content := BlockContent(Bare(BlocksOf(message.content))))
  }

  /** A payload with every mark erased and every string as its one text block. */
  datatype BarePayload = BarePayload(tools: seq<Tool>, system: Option<seq<Block>>, messages: seq<Message>)

  function Erased(p: Payload): BarePayload {
    BarePayload(
      seq(|p.tools|, i requires 0 <= i < |p.tools| => p.tools[i].(cached := false)),
      (match p.system
       case NoSystem => None
       case PlainSystem(text) => Some([Block(Text(text))])
       case BlockSystem(blocks) => Some(Bare(blocks))),
      seq(|p.messages|, i requires 0 <= i < |p.messages| => BareMessage(p.messages[i])))
  }

  lemma MarkingOneErases(messages: seq<Message>, p: Position)
    requires IsPosition(messages, p)
    ensures |MarkedAt(messages, p)| == |messages|
    ensures forall i :: 0 <= i < |messages| ==> BareMessage(MarkedAt(messages, p)[i]) == BareMessage(messages[i])
  {
    var blocks := BlocksOf(messages[p.message].content);
    assert Bare(blocks[p.block := blocks[p.block].(cached := true)]) == Bare(blocks);
  }

  lemma MarkingErases(payload: Payload)
    ensures Erased(Marked(payload)) == Erased(payload)
  {
    var messages := payload.messages;
    if messages != [] {
      var boundary := BoundaryMark(messages);
      if boundary.Some? {
        MarkingOneErases(messages, boundary.value);
      }
      var atBoundary := MarkedMaybe(messages, boundary);
      if MovingMark(atBoundary).Some? {
        MarkingOneErases(atBoundary, MovingMark(atBoundary).value);
      }
    }
    var before, after := Erased(payload), Erased(Marked(payload));
    assert after.messages == before.messages;
    assert after.tools == before.tools;
    if payload.system.PlainSystem? {
      assert Bare([Block(Text(payload.system.text), false, true)]) == [Block(Text(payload.system.text))];
    }
  }

  // ── How many, and where ───────────────────────────────────────────

  function Marks(blocks: seq<Block>): nat {
    if blocks == [] then 0 else Marks(Init(blocks)) + (if Last(blocks).cached then 1 else 0)
  }

  function ToolMarks(tools: seq<Tool>): nat {
    if tools == [] then 0 else ToolMarks(Init(tools)) + (if Last(tools).cached then 1 else 0)
  }

  function MessageMarks(messages: seq<Message>): nat {
    if messages == [] then 0 else MessageMarks(Init(messages)) + Marks(BlocksOf(Last(messages).content))
  }

  function SystemMarks(system: SystemField): nat {
    if system.BlockSystem? then Marks(system.blocks) else 0
  }

  function AllMarks(p: Payload): nat {
    ToolMarks(p.tools) + SystemMarks(p.system) + MessageMarks(p.messages)
  }

  lemma {:induction false} OneMoreMark(blocks: seq<Block>, at: nat)
    requires at < |blocks|
    ensures Marks(blocks[at := blocks[at].(cached := true)]) == Marks(blocks) + (if blocks[at].cached then 0 else 1)
  {
    var after := blocks[at := blocks[at].(cached := true)];
    if at == |blocks| - 1 {
      assert Init(after) == Init(blocks);
    } else {
      OneMoreMark(Init(blocks), at);
      assert Init(after) == Init(blocks)[at := Init(blocks)[at].(cached := true)];
    }
  }

  lemma {:induction false} OneMoreToolMark(tools: seq<Tool>, at: nat)
    requires at < |tools|
    ensures ToolMarks(tools[at := tools[at].(cached := true)]) <= ToolMarks(tools) + 1
  {
    var after := tools[at := tools[at].(cached := true)];
    if at == |tools| - 1 {
      assert Init(after) == Init(tools);
    } else {
      OneMoreToolMark(Init(tools), at);
      assert Init(after) == Init(tools)[at := Init(tools)[at].(cached := true)];
    }
  }

  lemma {:induction false} OneMoreMessageMark(messages: seq<Message>, p: Position)
    requires IsPosition(messages, p)
    ensures MessageMarks(MarkedAt(messages, p)) <= MessageMarks(messages) + 1
  {
    var after := MarkedAt(messages, p);
    if p.message == |messages| - 1 {
      assert Init(after) == Init(messages);
      OneMoreMark(BlocksOf(Last(messages).content), p.block);
    } else {
      OneMoreMessageMark(Init(messages), p);
      assert Init(after) == MarkedAt(Init(messages), p);
    }
  }

  lemma SystemGainsOne(system: SystemField)
    ensures SystemMarks(MarkedSystem(system)) <= SystemMarks(system) + 1
  {
    if system.PlainSystem? {
      var one := [Block(Text(system.text), false, true)];
      assert Init(one) == [] && Marks(one) == 1;
    }
  }

  lemma MessagesGainTwo(messages: seq<Message>)
    ensures MessageMarks(MarkedMessages(messages)) <= MessageMarks(messages) + 2
  {
    if messages != [] {
      var boundary := BoundaryMark(messages);
      if boundary.Some? {
        OneMoreMessageMark(messages, boundary.value);
      }
      var atBoundary := MarkedMaybe(messages, boundary);
      if MovingMark(atBoundary).Some? {
        OneMoreMessageMark(atBoundary, MovingMark(atBoundary).value);
      }
    }
  }

  /** Four marks at most are added. */
  lemma AtMostFourMarksAreAdded(payload: Payload)
    ensures AllMarks(Marked(payload)) <= AllMarks(payload) + 4
  {
    if LastLoaded(payload.tools) >= 0 {
      OneMoreToolMark(payload.tools, LastLoaded(payload.tools));
    }
    SystemGainsOne(payload.system);
    MessagesGainTwo(payload.messages);
  }

  /** A block or tool that is marked afterwards either was, or is one that may be. */
  lemma MarksGoWhereTheyMay(payload: Payload)
    ensures var marked := Marked(payload);
      && (forall i :: 0 <= i < |payload.tools| && marked.tools[i].cached ==> payload.tools[i].cached || !payload.tools[i].deferred)
      && forall p: Position :: IsPosition(payload.messages, p) ==>
           IsPosition(marked.messages, p) &&
           (BlockAt(marked.messages, p).cached ==> BlockAt(payload.messages, p).cached || AcceptsCacheControl(BlockAt(payload.messages, p).kind))
  {
  }

  ghost predicate IsLastLoaded(tools: seq<Tool>, i: nat)
    requires i < |tools|
  {
    !tools[i].deferred && forall j :: i < j < |tools| ==> tools[j].deferred
  }

  /** The one marked block of `text`, or blank text as it was. */
  ghost predicate IsMarkedText(system: SystemField, text: string) {
    if IsBlank(text) then system == PlainSystem(text)
    else system.BlockSystem? && |system.blocks| == 1 && system.blocks[0].cached && system.blocks[0].kind == Text(text)
  }

  /** The tools and the system prompt get their mark whenever something of them can take one. */
  lemma ToolsAndSystemAreMarked(payload: Payload)
    ensures var marked := Marked(payload);
      && (forall i :: 0 <= i < |payload.tools| && IsLastLoaded(payload.tools, i) ==> marked.tools[i].cached)
      && (payload.system.PlainSystem? ==> IsMarkedText(marked.system, payload.system.text))
  {
    assert forall i :: 0 <= i < |payload.tools| && !payload.tools[i].deferred ==> i <= LastLoaded(payload.tools);
  }

  lemma MarkingKeepsMoving(messages: seq<Message>, p: Option<Position>)
    requires messages != [] && (p.Some? ==> IsPosition(messages, p.value))
    ensures MovingMessage(MarkedMaybe(messages, p)) == MovingMessage(messages)
    ensures forall q: Position :: IsPosition(messages, q) ==>
              IsPosition(MarkedMaybe(messages, p), q)
              && BlockAt(MarkedMaybe(messages, p), q).kind == BlockAt(messages, q).kind
              && (BlockAt(messages, q).cached ==> BlockAt(MarkedMaybe(messages, p), q).cached)
  {
    var marked := MarkedMaybe(messages, p);
    assert forall i :: 0 <= i < |messages| ==> marked[i].turnScoped == messages[i].turnScoped;
  }

  lemma MarkedIsCached(messages: seq<Message>, p: Position)
    requires IsPosition(messages, p)
    ensures IsPosition(MarkedAt(messages, p), p) && BlockAt(MarkedAt(messages, p), p).cached
  {
  }

  /** The moving mark is set whenever the last message that is not turn-scoped has a block for it: on the last such block. */
  lemma MovingMarkIsSet(messages: seq<Message>, k: nat)
    requires messages != []
    requires var blocks := BlocksOf(messages[MovingMessage(messages)].content);
      k < |blocks| && AcceptsCacheControl(blocks[k].kind) && forall j :: k < j < |blocks| ==> !AcceptsCacheControl(blocks[j].kind)
    ensures var p := Position(MovingMessage(messages), k);
      IsPosition(MarkedMessages(messages), p) && BlockAt(MarkedMessages(messages), p).cached
  {
    var p := Position(MovingMessage(messages), k);
    var atBoundary := MarkedMaybe(messages, BoundaryMark(messages));
    MarkingKeepsMoving(messages, BoundaryMark(messages));
    var before, after := BlocksOf(messages[p.message].content), BlocksOf(atBoundary[p.message].content);
    assert |after| == |before|;
    forall j | 0 <= j < |after| ensures after[j].kind == before[j].kind {
      assert BlockAt(messages, Position(p.message, j)) == before[j];
      assert BlockAt(atBoundary, Position(p.message, j)) == after[j];
    }
    assert LastAccepting(after) == k;
    MarkedIsCached(atBoundary, p);
  }

  /** Anything but thinking, and text only with something in it. */
  ghost predicate MayBeMarked(kind: Kind) {
    match kind
    case Thinking(_, _) => false
    case RedactedThinking(_) => false
    case Text(text) => exists i :: 0 <= i < |text| && !IsSpace(text[i])
    case _ => true
  }

  lemma AcceptingMayBeMarked(kind: Kind)
    ensures AcceptsCacheControl(kind) <==> MayBeMarked(kind)
  {
  }

  ghost predicate IsBefore(q: Position, p: Position) {
    q.message < p.message || (q.message == p.message && q.block < p.block)
  }

  /** The first tagged block of all the messages. */
  ghost predicate IsFirstTagged(messages: seq<Message>, p: Position) {
    && IsPosition(messages, p) && BlockAt(messages, p).boundary
    && forall q: Position :: IsPosition(messages, q) && IsBefore(q, p) ==> !BlockAt(messages, q).boundary
  }

  lemma {:induction false} FirstTaggedIsFoundFrom(messages: seq<Message>, from: nat, p: Position)
    requires IsFirstTagged(messages, p) && from <= p.message
    ensures BoundaryFrom(messages, from) == Some(p)
    decreases p.message - from
  {
    var blocks := BlocksOf(messages[from].content);
    forall b | 0 <= b < |blocks| && IsBefore(Position(from, b), p) ensures !blocks[b].boundary {
      assert BlockAt(messages, Position(from, b)) == blocks[b];
    }
    if from == p.message {
      assert BlockAt(messages, p) == blocks[p.block];
    } else {
      FirstTaggedIsFoundFrom(messages, from + 1, p);
    }
  }

  /** The mark of the turn's boundary is set as well: on the first tagged block of the messages, whenever it may be. */
  lemma BoundaryMarkIsSet(messages: seq<Message>, p: Position)
    requires IsFirstTagged(messages, p) && MayBeMarked(BlockAt(messages, p).kind)
    ensures IsPosition(MarkedMessages(messages), p) && BlockAt(MarkedMessages(messages), p).cached
  {
    var atBoundary := MarkedMaybe(messages, BoundaryMark(messages));
    FirstTaggedIsFoundFrom(messages, 0, p);
    AcceptingMayBeMarked(BlockAt(messages, p).kind);
    if !BlockAt(messages, p).cached {
      MarkedIsCached(messages, p);
    }
    MarkingKeepsMoving(atBoundary, MovingMark(atBoundary));
  }

  /** The moving mark lands on the last block that takes one, in the last message that is not turn-scoped. */
  lemma MovingMarkIsOutsideTurnScope(messages: seq<Message>)
    requires messages != [] && !messages[0].turnScoped
    ensures var p := MovingMark(MarkedMaybe(messages, BoundaryMark(messages)));
      p.Some? ==>
        && p.value.message < |messages| && !messages[p.value.message].turnScoped
        && (forall i :: p.value.message < i < |messages| ==> messages[i].turnScoped)
        && (forall k :: p.value.block < k < |BlocksOf(messages[p.value.message].content)| ==>
              !AcceptsCacheControl(BlocksOf(messages[p.value.message].content)[k].kind))
  {
    var atBoundary := MarkedMaybe(messages, BoundaryMark(messages));
    assert forall i :: 0 <= i < |messages| ==> atBoundary[i].turnScoped == messages[i].turnScoped;
    var p := MovingMark(atBoundary);
    if p.Some? {
      var before, after := BlocksOf(messages[p.value.message].content), BlocksOf(atBoundary[p.value.message].content);
      assert |after| == |before| && forall k :: 0 <= k < |after| ==> after[k].kind == before[k].kind;
    }
  }
}
