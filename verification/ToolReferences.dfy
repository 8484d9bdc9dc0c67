/**
 * Custom tool search: a placeholder left by a demoted activation message
 * becomes tool references inside the result of the call that activated the
 * tools, and that result's own text moves right behind it.
 */
module ToolReferences {
  import opened Prelude
  import opened AnthropicBlocks

  /** JSON.stringify of a result's parts, left uninterpreted. */
  type Stringify = seq<ResultPart> -> string

  datatype Attachment = Attachment(names: seq<string>, sourceToolCallId: Option<string>)

  predicate IsResult(block: Block) {
    block.kind.ToolResult?
  }

  predicate IsResultOf(block: Block, id: string) {
    block.kind.ToolResult? && block.kind.toolUseId == id
  }

  function References(names: seq<string>): seq<ResultPart> {
    if names == [] then [] else References(Init(names)) + [Reference(Last(names))]
  }

  predicate AllReferences(parts: seq<ResultPart>) {
    forall i :: 0 <= i < |parts| ==> parts[i].Reference?
  }

  /** The references a result already carries; any other content gives way. */
  function Kept(result: ResultContent): seq<ResultPart> {
    if result.ListResult? && AllReferences(result.parts) then result.parts else []
  }

  /** The text that content becomes when it gives way. */
  function Moved(stringify: Stringify, result: ResultContent): seq<Block> {
    match result
    case PlainResult(text) => [Block(Text(text))]
    case ListResult(parts) => if AllReferences(parts) then [] else [Block(Text(stringify(parts)))]
  }

  function WithParts(block: Block, parts: seq<ResultPart>): Block
    requires IsResult(block)
  {
    block.(kind := ToolResult(block.kind.toolUseId, ListResult(parts)))
  }

  /** A target and what follows it once it carries `names`. */
  function Carrying(stringify: Stringify, target: Block, names: seq<string>): seq<Block>
    requires IsResult(target)
  {
    [WithParts(target, Kept(target.kind.result) + References(names))] + Moved(stringify, target.kind.result)
  }

  /** The first result of call `id`, or else the last result; -1 when there is none. */
  function Target(blocks: seq<Block>, source: Option<string>): (at: int)
    ensures -1 <= at < |blocks|
    ensures at >= 0 ==> IsResult(blocks[at])
  {
    if source.Some? && FirstResultOf(blocks, source.value) >= 0 then FirstResultOf(blocks, source.value) else LastResult(blocks)
  }

  function FirstResultOf(blocks: seq<Block>, id: string): (at: int)
    ensures -1 <= at < |blocks|
    ensures at >= 0 ==> IsResultOf(blocks[at], id) && forall i :: 0 <= i < at ==> !IsResultOf(blocks[i], id)
    ensures at < 0 ==> forall i :: 0 <= i < |blocks| ==> !IsResultOf(blocks[i], id)
  {
    if blocks == [] then -1
    else if IsResultOf(blocks[0], id) then 0
    else
      var rest := FirstResultOf(blocks[1..], id);
      if rest < 0 then -1 else rest + 1
  }

  function LastResult(blocks: seq<Block>): (at: int)
    ensures -1 <= at < |blocks|
    ensures at >= 0 ==> IsResult(blocks[at])
    ensures forall i :: at < i < |blocks| ==> !IsResult(blocks[i])
  {
    if blocks == [] then -1
    else if IsResult(Last(blocks)) then |blocks| - 1
    else LastResult(Init(blocks))
  }

  function Spliced(blocks: seq<Block>, at: nat, replacement: seq<Block>): seq<Block>
    requires at < |blocks|
  {
    blocks[..at] + replacement + blocks[at + 1..]
  }

  function AttachOne(stringify: Stringify, output: seq<Block>, attachment: Attachment): seq<Block> {
    var target := Target(output, attachment.sourceToolCallId);
    if target < 0 then output else Spliced(output, target, Carrying(stringify, output[target], attachment.names))
  }

  function AttachAll(stringify: Stringify, output: seq<Block>, attachments: seq<Attachment>): seq<Block> {
    if attachments == [] then output
    else AttachOne(stringify, AttachAll(stringify, output, Init(attachments)), Last(attachments))
  }

  function Attachments(blocks: seq<Block>): seq<Attachment> {
    if blocks == [] then []
    else
      var last := Last(blocks).kind;
      Attachments(Init(blocks)) + (if last.ReferencePlaceholder? then [Attachment(last.names, last.sourceToolCallId)] else [])
  }

  function Others(blocks: seq<Block>): seq<Block> {
    if blocks == [] then [] else Others(Init(blocks)) + (if Last(blocks).kind.ReferencePlaceholder? then [] else [Last(blocks)])
  }

  function Attached(stringify: Stringify, blocks: seq<Block>): seq<Block> {
    AttachAll(stringify, Others(blocks), Attachments(blocks))
  }

  /** One user message: placeholders out, then each looks for its result and edits the list in place. */
  method AttachToolReferences(stringify: Stringify, blocks: seq<Block>) returns (output: seq<Block>)
    ensures output == Attached(stringify, blocks)
  {
    output := [];
    var attachments: seq<Attachment> := [];
    for i := 0 to |blocks|
      invariant output == Others(blocks[..i]) && attachments == Attachments(blocks[..i])
    {
      var kind := blocks[i].kind;
      assert Init(blocks[..i + 1]) == blocks[..i];
      if kind.ReferencePlaceholder? {
        attachments := attachments + [Attachment(kind.names, kind.sourceToolCallId)];
      } else {
        output := output + [blocks[i]];
      }
    }
    assert blocks[..|blocks|] == blocks;
    for i := 0 to |attachments|
      invariant output == AttachAll(stringify, Others(blocks), attachments[..i])
    {
      assert Init(attachments[..i + 1]) == attachments[..i];
      output := AttachInPlace(stringify, output, attachments[i]);
    }
    assert attachments[..|attachments|] == attachments;
  }

  method AttachInPlace(stringify: Stringify, output: seq<Block>, attachment: Attachment) returns (edited: seq<Block>)
    ensures edited == AttachOne(stringify, output, attachment)
  {
    edited := output;
    var target := Target(output, attachment.sourceToolCallId);
    if target < 0 {
      return;
    }
    var result := output[target].kind.result;
    var existing := if result.ListResult? then result.parts else [];
    var alreadyReferences := AllReferences(existing);
    if !alreadyReferences || result.PlainResult? {
      var originalText := if result.PlainResult? then result.text else stringify(result.parts);
      edited := edited[..target + 1] + [Block(Text(originalText))] + edited[target + 1..];
    }
    var references := (if alreadyReferences then existing else []) + References(attachment.names);
    edited := edited[target := WithParts(output[target], references)];
  }

  // ── What comes out, block by block ────────────────────────────────

  /** Everything the attachments bring to the block at `i`, in order. */
  function Claims(others: seq<Block>, attachments: seq<Attachment>, i: nat): seq<seq<string>> {
    if attachments == [] then []
    else
      Claims(others, Init(attachments), i)
      + (if Target(others, Last(attachments).sourceToolCallId) == i then [Last(attachments).names] else [])
  }

  function AllReferencesOf(claims: seq<seq<string>>): seq<ResultPart> {
    if claims == [] then [] else AllReferencesOf(Init(claims)) + References(Last(claims))
  }

  /** A block and what stands behind it, once everything claiming it is attached. */
  function Rendered(stringify: Stringify, block: Block, claims: seq<seq<string>>): seq<Block> {
    if claims == [] || !IsResult(block) then [block]
    else [WithParts(block, Kept(block.kind.result) + AllReferencesOf(claims))] + Moved(stringify, block.kind.result)
  }

  /** A block with everything that claims it. */
  datatype Claimed = Claimed(block: Block, claims: seq<seq<string>>)

  function RenderedAll(stringify: Stringify, claimed: seq<Claimed>): seq<Block> {
    FlatMap((cell: Claimed) => Rendered(stringify, cell.block, cell.claims), claimed)
  }

  function AllClaimed(others: seq<Block>, attachments: seq<Attachment>): (claimed: seq<Claimed>)
    ensures |claimed| == |others|
    ensures forall i :: 0 <= i < |others| ==> claimed[i] == Claimed(others[i], Claims(others, attachments, i))
  {
    seq(|others|, i requires 0 <= i < |others| => Claimed(others[i], Claims(others, attachments, i)))
  }

  lemma RenderedParts(stringify: Stringify, a: seq<Claimed>, cell: Claimed, b: seq<Claimed>)
    ensures RenderedAll(stringify, a + [cell] + b) ==
      RenderedAll(stringify, a) + Rendered(stringify, cell.block, cell.claims) + RenderedAll(stringify, b)
  {
    var render := (cell: Claimed) => Rendered(stringify, cell.block, cell.claims);
    FlatMapAppends(render, a + [cell], b);
    FlatMapAppends(render, a, [cell]);
    FlatMapOne(render, cell);
  }

  ghost predicate NoResultOf(blocks: seq<Block>, id: string) {
    forall i :: 0 <= i < |blocks| ==> !IsResultOf(blocks[i], id)
  }

  ghost predicate NoResult(blocks: seq<Block>) {
    forall i :: 0 <= i < |blocks| ==> !IsResult(blocks[i])
  }

  /** Rendering adds no results and changes none's call. */
  lemma {:induction false} RenderingKeepsNoResultOf(stringify: Stringify, claimed: seq<Claimed>, id: string)
    requires forall i :: 0 <= i < |claimed| ==> !IsResultOf(claimed[i].block, id)
    ensures NoResultOf(RenderedAll(stringify, claimed), id)
  {
    if claimed != [] {
      assert !IsResultOf(claimed[|claimed| - 1].block, id);
      RenderingKeepsNoResultOf(stringify, Init(claimed), id);
    }
  }

  lemma {:induction false} RenderingKeepsNoResult(stringify: Stringify, claimed: seq<Claimed>)
    requires forall i :: 0 <= i < |claimed| ==> !IsResult(claimed[i].block)
    ensures NoResult(RenderedAll(stringify, claimed))
  {
    if claimed != [] {
      assert !IsResult(claimed[|claimed| - 1].block);
      RenderingKeepsNoResult(stringify, Init(claimed));
    }
  }

  lemma FirstResultIsAt(a: seq<Block>, target: Block, b: seq<Block>, id: string)
    requires NoResultOf(a, id) && IsResultOf(target, id)
    ensures FirstResultOf(a + [target] + b, id) == |a|
  {
    var all := a + [target] + b;
    assert all[|a|] == target && forall i :: 0 <= i < |a| ==> all[i] == a[i];
  }

  lemma LastResultIsAt(a: seq<Block>, target: Block, b: seq<Block>)
    requires NoResult(b) && IsResult(target)
    ensures LastResult(a + [target] + b) == |a|
  {
    var all := a + [target] + b;
    var at := LastResult(all);
    assert IsResult(all[|a|]);
    assert at > |a| ==> all[at] == b[at - |a| - 1];
  }

  lemma NoResultsAppend(a: seq<Block>, b: seq<Block>, id: string)
    ensures NoResultOf(a + b, id) <==> NoResultOf(a, id) && NoResultOf(b, id)
    ensures NoResult(a + b) <==> NoResult(a) && NoResult(b)
  {
    var all := a + b;
    assert forall i :: 0 <= i < |a| ==> all[i] == a[i];
    assert forall i :: 0 <= i < |b| ==> all[|a| + i] == b[i];
  }

  /** Why the block at `at` is the target. */
  ghost predicate IsTargetAt(blocks: seq<Block>, at: nat, source: Option<string>)
    requires at < |blocks|
  {
    || (source.Some? && IsResultOf(blocks[at], source.value) && forall i :: 0 <= i < at ==> !IsResultOf(blocks[i], source.value))
    || (IsResult(blocks[at]) && (forall i :: at < i < |blocks| ==> !IsResult(blocks[i]))
        && (source.Some? ==> forall i :: 0 <= i <= at ==> !IsResultOf(blocks[i], source.value)))
  }

  lemma BetweenIsTarget(a: seq<Block>, block: Block, b: seq<Block>, source: Option<string>)
    requires source.Some? ==> NoResultOf(a, source.value)
    requires IsResult(block) && ((source.Some? && IsResultOf(block, source.value)) || NoResult(b))
    ensures Target(a + [block] + b, source) == |a|
  {
    if source.Some? && IsResultOf(block, source.value) {
      FirstResultIsAt(a, block, b, source.value);
    } else {
      LastResultIsAt(a, block, b);
      if source.Some? {
        NoResultsAppend(a + [block], b, source.value);
        NoResultsAppend(a, [block], source.value);
      }
    }
  }

  /** The rendered list has its target where the plain one does. */
  lemma TargetMoves(stringify: Stringify, others: seq<Block>, claimed: seq<Claimed>, source: Option<string>)
    requires |claimed| == |others| && forall i :: 0 <= i < |others| ==> claimed[i].block == others[i]
    requires Target(others, source) >= 0
    ensures var at := Target(others, source);
      var rendered := Rendered(stringify, claimed[at].block, claimed[at].claims);
      Target(RenderedAll(stringify, claimed[..at]) + [rendered[0]] + (rendered[1..] + RenderedAll(stringify, claimed[at + 1..])), source)
      == |RenderedAll(stringify, claimed[..at])|
  {
    var at := Target(others, source);
    assert IsTargetAt(others, at, source);
    var a, b := claimed[..at], claimed[at + 1..];
    var rendered := Rendered(stringify, claimed[at].block, claimed[at].claims);
    if source.Some? {
      RenderingKeepsNoResultOf(stringify, a, source.value);
    }
    if source.None? || !IsResultOf(others[at], source.value) {
      assert forall i :: 0 <= i < |b| ==> b[i].block == others[at + 1 + i];
      RenderingKeepsNoResult(stringify, b);
      NoResultsAppend(rendered[1..], RenderedAll(stringify, b), "");
    }
    BetweenIsTarget(RenderedAll(stringify, a), rendered[0], rendered[1..] + RenderedAll(stringify, b), source);
  }

  lemma {:induction false} ReferencesAreReferences(names: seq<string>)
    ensures AllReferences(References(names))
  {
    if names != [] {
      ReferencesAreReferences(Init(names));
    }
  }

  lemma {:induction false} ClaimedAreReferences(claims: seq<seq<string>>)
    ensures AllReferences(AllReferencesOf(claims))
  {
    if claims != [] {
      ClaimedAreReferences(Init(claims));
      ReferencesAreReferences(Last(claims));
    }
  }

  /** One more attachment on a rendered result is the result rendered with one more claim. */
  lemma CarryingOneMore(stringify: Stringify, block: Block, claims: seq<seq<string>>, names: seq<string>)
    requires IsResult(block)
    ensures var rendered := Rendered(stringify, block, claims);
      IsResult(rendered[0]) && Carrying(stringify, rendered[0], names) + rendered[1..] == Rendered(stringify, block, claims + [names])
  {
    assert Init(claims + [names]) == claims;
    if claims == [] {
      assert AllReferencesOf([names]) == References(names) by {
        assert Init([names]) == [];
        assert [] + References(names) == References(names);
      }
    } else {
      ClaimedAreReferences(claims);
      assert Kept(block.kind.result) + AllReferencesOf(claims) + References(names)
          == Kept(block.kind.result) + (AllReferencesOf(claims) + References(names));
    }
  }

  function OneMore(cell: Claimed, names: seq<string>): Claimed {
    cell.(claims := cell.claims + [names])
  }

  lemma SettingBetween<T>(s: seq<T>, at: nat, x: T)
    requires at < |s|
    ensures s == s[..at] + [s[at]] + s[at + 1..]
    ensures s[at := x] == s[..at] + [x] + s[at + 1..]
  {
  }

  lemma AttachingOneClaims(stringify: Stringify, others: seq<Block>, claimed: seq<Claimed>, attachment: Attachment)
    requires |claimed| == |others| && forall i :: 0 <= i < |others| ==> claimed[i].block == others[i]
    ensures var at := Target(others, attachment.sourceToolCallId);
      AttachOne(stringify, RenderedAll(stringify, claimed), attachment) ==
      RenderedAll(stringify, if at < 0 then claimed else claimed[at := OneMore(claimed[at], attachment.names)])
  {
    var at := Target(others, attachment.sourceToolCallId);
    if at >= 0 {
      var a, cell, b := claimed[..at], claimed[at], claimed[at + 1..];
      var more := OneMore(cell, attachment.names);
      SettingBetween(claimed, at, more);
      RenderedParts(stringify, a, cell, b);
      RenderedParts(stringify, a, more, b);
      TargetMoves(stringify, others, claimed, attachment.sourceToolCallId);
      CarryingOneMore(stringify, cell.block, cell.claims, attachment.names);
      var rendered := Rendered(stringify, cell.block, cell.claims);
      SplicingBetween(RenderedAll(stringify, a), rendered, RenderedAll(stringify, b), Carrying(stringify, rendered[0], attachment.names));
    } else {
      RenderingKeepsNoResult(stringify, claimed);
    }
  }

  lemma SplicingBetween(a: seq<Block>, middle: seq<Block>, b: seq<Block>, replacement: seq<Block>)
    requires middle != []
    ensures a + middle + b == a + [middle[0]] + (middle[1..] + b)
    ensures Spliced(a + middle + b, |a|, replacement) == a + (replacement + middle[1..]) + b
  {
  }

  lemma {:induction false} NothingClaimed(stringify: Stringify, blocks: seq<Block>, claimed: seq<Claimed>)
    requires |claimed| == |blocks| && forall i :: 0 <= i < |claimed| ==> claimed[i] == Claimed(blocks[i], [])
    ensures RenderedAll(stringify, claimed) == blocks
  {
    if blocks != [] {
      assert claimed[|claimed| - 1] == Claimed(Last(blocks), []);
      NothingClaimed(stringify, Init(blocks), Init(claimed));
      InitAndLast(blocks);
    }
  }

  lemma {:induction false} AttachingIsRendering(stringify: Stringify, others: seq<Block>, attachments: seq<Attachment>)
    ensures AttachAll(stringify, others, attachments) == RenderedAll(stringify, AllClaimed(others, attachments))
  {
    var claimed := AllClaimed(others, attachments);
    if attachments == [] {
      NothingClaimed(stringify, others, claimed);
    } else {
      var front, last := Init(attachments), Last(attachments);
      var before := AllClaimed(others, front);
      AttachingIsRendering(stringify, others, front);
      AttachingOneClaims(stringify, others, before, last);
      var at := Target(others, last.sourceToolCallId);
      assert claimed == if at < 0 then before else before[at := OneMore(before[at], last.names)] by {
        forall i | 0 <= i < |others|
          ensures Claims(others, attachments, i) == if i == at then Claims(others, front, i) + [last.names] else Claims(others, front, i)
        {
        }
      }
    }
  }

  /**
   * Block by block: every block that is not a placeholder stays in its place;
   * a result the placeholders claim carries their names, each once and in
   * order, behind the references it had, and its other content stands right
   * behind it as text.
   */
  lemma AttachedBlockByBlock(stringify: Stringify, blocks: seq<Block>)
    ensures Attached(stringify, blocks) == RenderedAll(stringify, AllClaimed(Others(blocks), Attachments(blocks)))
  {
    AttachingIsRendering(stringify, Others(blocks), Attachments(blocks));
  }

  ghost predicate NoPlaceholder(blocks: seq<Block>) {
    forall i :: 0 <= i < |blocks| ==> !blocks[i].kind.ReferencePlaceholder?
  }

  lemma {:induction false} OthersAreNoPlaceholders(blocks: seq<Block>)
    ensures NoPlaceholder(Others(blocks))
  {
    if blocks != [] {
      OthersAreNoPlaceholders(Init(blocks));
    }
  }

  lemma {:induction false} RenderedHasNoPlaceholder(stringify: Stringify, claimed: seq<Claimed>)
    requires forall i :: 0 <= i < |claimed| ==> !claimed[i].block.kind.ReferencePlaceholder?
    ensures NoPlaceholder(RenderedAll(stringify, claimed))
  {
    if claimed != [] {
      assert !claimed[|claimed| - 1].block.kind.ReferencePlaceholder?;
      RenderedHasNoPlaceholder(stringify, Init(claimed));
    }
  }

  lemma NoPlaceholderIsLeft(stringify: Stringify, blocks: seq<Block>)
    ensures NoPlaceholder(Attached(stringify, blocks))
  {
    AttachedBlockByBlock(stringify, blocks);
    OthersAreNoPlaceholders(blocks);
    RenderedHasNoPlaceholder(stringify, AllClaimed(Others(blocks), Attachments(blocks)));
  }

  // ── Which names a result carries ──────────────────────────────────

  /** One reference for each name, in order. */
  ghost predicate Refer(parts: seq<ResultPart>, names: seq<string>) {
    |parts| == |names| && forall i :: 0 <= i < |names| ==> parts[i] == Reference(names[i])
  }

  /** The names of all claims, one after the other. */
  function AllNames(claims: seq<seq<string>>): seq<string> {
    if claims == [] then [] else AllNames(Init(claims)) + Last(claims)
  }

  lemma {:induction false} ReferencesRefer(names: seq<string>)
    ensures Refer(References(names), names)
  {
    if names != [] {
      ReferencesRefer(Init(names));
      InitAndLast(names);
    }
  }

  lemma {:induction false} AllReferencesRefer(claims: seq<seq<string>>)
    ensures Refer(AllReferencesOf(claims), AllNames(claims))
  {
    if claims != [] {
      AllReferencesRefer(Init(claims));
      ReferencesRefer(Last(claims));
    }
  }

  /** What a result carries already: its parts if it is a list of references, nothing otherwise. */
  ghost predicate IsCarried(result: ResultContent, parts: seq<ResultPart>) {
    match result
    case PlainResult(_) => parts == []
    case ListResult(before) => if exists i :: 0 <= i < |before| && before[i].OtherPart? then parts == [] else parts == before
  }

  /**
   * A result that is claimed holds the references it had and one for each claimed
   * name, in order, and nothing else; its other content is the text right behind it.
   */
  lemma ClaimedResultHoldsOnlyReferences(stringify: Stringify, block: Block, claims: seq<seq<string>>) returns (had: seq<ResultPart>)
    requires IsResult(block) && claims != []
    ensures IsCarried(block.kind.result, had)
    ensures var rendered := Rendered(stringify, block, claims);
      && rendered[0].kind.ToolResult? && rendered[0].kind.toolUseId == block.kind.toolUseId
      && rendered[0].boundary == block.boundary && rendered[0].cached == block.cached
      && rendered[0].kind.result.ListResult? && |had| <= |rendered[0].kind.result.parts|
      && rendered[0].kind.result.parts[..|had|] == had && Refer(rendered[0].kind.result.parts[|had|..], AllNames(claims))
      && (block.kind.result.PlainResult? ==> |rendered| == 2 && rendered[1] == Block(Text(block.kind.result.text)))
      && (block.kind.result.ListResult? ==>
            if had == block.kind.result.parts then |rendered| == 1
            else |rendered| == 2 && rendered[1] == Block(Text(stringify(block.kind.result.parts))))
  {
    had := Kept(block.kind.result);
    AllReferencesRefer(claims);
  }

  /** A run of references to these names, one behind the other. */
  ghost predicate RefersAt(parts: seq<ResultPart>, o: nat, names: seq<string>) {
    o + |names| <= |parts| && forall i :: 0 <= i < |names| ==> parts[o + i] == Reference(names[i])
  }

  lemma {:induction false} ClaimIsARun(claims: seq<seq<string>>, names: seq<string>) returns (o: nat)
    requires names in claims
    ensures o + |names| <= |AllNames(claims)| && AllNames(claims)[o..o + |names|] == names
  {
    if names == Last(claims) {
      o := |AllNames(Init(claims))|;
    } else {
      o := ClaimIsARun(Init(claims), names);
      assert AllNames(claims)[o..o + |names|] == AllNames(Init(claims))[o..o + |names|];
    }
  }

  lemma RunIsReferred(had: seq<ResultPart>, references: seq<ResultPart>, all: seq<string>, run: nat, names: seq<string>)
    requires Refer(references, all) && run + |names| <= |all| && all[run..run + |names|] == names
    ensures RefersAt(had + references, |had| + run, names)
  {
    forall i | 0 <= i < |names| ensures (had + references)[|had| + run + i] == Reference(names[i]) {
      assert (had + references)[|had| + run + i] == references[run + i] && all[run..run + |names|][i] == all[run + i];
    }
  }

  lemma ClaimIsReferred(stringify: Stringify, block: Block, claims: seq<seq<string>>, names: seq<string>) returns (o: nat)
    requires IsResult(block) && names in claims
    ensures var rendered := Rendered(stringify, block, claims)[0];
      && rendered.kind.ToolResult? && rendered.kind.toolUseId == block.kind.toolUseId
      && rendered.kind.result.ListResult? && RefersAt(rendered.kind.result.parts, o, names)
  {
    var had, references := Kept(block.kind.result), AllReferencesOf(claims);
    var run := ClaimIsARun(claims, names);
    AllReferencesRefer(claims);
    RunIsReferred(had, references, AllNames(claims), run, names);
    o := |had| + run;
    assert Rendered(stringify, block, claims)[0].kind.result.parts == had + references;
  }

  /** The result of the call, if the blocks hold one, and the last result otherwise. */
  ghost predicate IsMeant(blocks: seq<Block>, source: Option<string>, id: string) {
    if source.Some? && (exists i :: 0 <= i < |blocks| && IsResultOf(blocks[i], source.value)) then id == source.value
    else exists i :: 0 <= i < |blocks| && IsResultOf(blocks[i], id) && forall j :: i < j < |blocks| ==> !blocks[j].kind.ToolResult?
  }

  /** `other` holds, in order, what `blocks` does but the placeholders, so the same results. */
  lemma {:induction false} OthersHoldResults(blocks: seq<Block>, id: string)
    ensures NoResultOf(Others(blocks), id) <==> NoResultOf(blocks, id)
    ensures NoResult(Others(blocks)) <==> NoResult(blocks)
    ensures LastResult(Others(blocks)) < 0 <==> LastResult(blocks) < 0
    ensures LastResult(blocks) >= 0 ==> Others(blocks)[LastResult(Others(blocks))] == blocks[LastResult(blocks)]
  {
    if blocks != [] {
      var front, last := Init(blocks), Last(blocks);
      OthersHoldResults(front, id);
      InitAndLast(blocks);
      NoResultsAppend(front, [last], id);
      NoResultsAppend(Others(front), [last], id);
      NothingMore(Others(front));
      LastResultSnoc(front, last);
      LastResultSnoc(Others(front), last);
    }
  }

  lemma LastResultSnoc(blocks: seq<Block>, last: Block)
    ensures LastResult(blocks + [last]) == if IsResult(last) then |blocks| else LastResult(blocks)
  {
    assert Init(blocks + [last]) == blocks;
  }

  lemma TargetIsMeant(blocks: seq<Block>, source: Option<string>)
    requires !NoResult(blocks)
    ensures var others := Others(blocks);
      Target(others, source) >= 0 && IsMeant(blocks, source, others[Target(others, source)].kind.toolUseId)
  {
    var others := Others(blocks);
    if source.Some? {
      OthersHoldResults(blocks, source.value);
    }
    OthersHoldResults(blocks, "");
    assert LastResult(blocks) >= 0;
  }

  lemma {:induction false} PlaceholderIsAttached(blocks: seq<Block>, p: nat) returns (k: nat)
    requires p < |blocks| && blocks[p].kind.ReferencePlaceholder?
    ensures k < |Attachments(blocks)| && Attachments(blocks)[k] == Attachment(blocks[p].kind.names, blocks[p].kind.sourceToolCallId)
  {
    if p == |blocks| - 1 {
      k := |Attachments(Init(blocks))|;
    } else {
      k := PlaceholderIsAttached(Init(blocks), p);
    }
  }

  lemma RenderedIsThere(stringify: Stringify, claimed: seq<Claimed>, i: nat) returns (at: nat)
    requires i < |claimed|
    ensures at < |RenderedAll(stringify, claimed)|
    ensures RenderedAll(stringify, claimed)[at] == Rendered(stringify, claimed[i].block, claimed[i].claims)[0]
  {
    assert claimed == claimed[..i] + [claimed[i]] + claimed[i + 1..];
    RenderedParts(stringify, claimed[..i], claimed[i], claimed[i + 1..]);
    at := |RenderedAll(stringify, claimed[..i])|;
  }

  /**
   * In a turn with a result, what a placeholder names is referred to, all of it and in
   * order, in the result of its call, or in the last result if that call has none.
   */
  lemma EveryPlaceholderIsReferred(stringify: Stringify, blocks: seq<Block>, p: nat) returns (at: nat, o: nat)
    requires p < |blocks| && blocks[p].kind.ReferencePlaceholder? && exists i :: 0 <= i < |blocks| && blocks[i].kind.ToolResult?
    ensures at < |Attached(stringify, blocks)|
    ensures var result := Attached(stringify, blocks)[at].kind;
      && result.ToolResult? && IsMeant(blocks, blocks[p].kind.sourceToolCallId, result.toolUseId)
      && result.result.ListResult? && RefersAt(result.result.parts, o, blocks[p].kind.names)
  {
    var others, attachments := Others(blocks), Attachments(blocks);
    var k := PlaceholderIsAttached(blocks, p);
    var target := Target(others, attachments[k].sourceToolCallId);
    OthersHoldResults(blocks, "");
    TargetIsMeant(blocks, attachments[k].sourceToolCallId);
    EveryAttachmentLands(others, attachments, k);
    AttachedBlockByBlock(stringify, blocks);
    at := RenderedIsThere(stringify, AllClaimed(others, attachments), target);
    o := ClaimIsReferred(stringify, others[target], Claims(others, attachments, target), attachments[k].names);
  }

  /** With a result in the message, every placeholder's names land in exactly one of them. */
  lemma {:induction false} EveryAttachmentLands(others: seq<Block>, attachments: seq<Attachment>, k: nat)
    requires k < |attachments| && !NoResult(others)
    ensures var target := Target(others, attachments[k].sourceToolCallId);
      && target >= 0 && attachments[k].names in Claims(others, attachments, target)
      && forall i: nat :: Claims(others, attachments[..k + 1], i)
                       == Claims(others, attachments[..k], i) + (if i == target then [attachments[k].names] else [])
  {
    assert Init(attachments[..k + 1]) == attachments[..k] && Last(attachments[..k + 1]) == attachments[k];
    var target := Target(others, attachments[k].sourceToolCallId);
    if k == |attachments| - 1 {
      assert attachments[k] == Last(attachments);
    } else {
      EveryAttachmentLands(others, Init(attachments), k);
    }
  }
}
