/** Consecutive messages of one role become one turn; user text keeps one block per message. */
module MessageMerge {
  import opened Prelude
  import opened AnthropicBlocks

  /** `current` joined onto `previous`, which has the same role. */
  function Joined(previous: Message, current: Message): Message {
    var turnScoped := previous.turnScoped && current.turnScoped;
    if previous.content.PlainContent? && current.content.PlainContent? && !current.role.User? then
      Message(previous.role, PlainContent(previous.content.text + "\n\n" + current.content.text), turnScoped)
    else
      Message(previous.role, BlockContent(BlocksOf(previous.content) + BlocksOf(current.content)), turnScoped)
  }

  function MergeInto(merged: seq<Message>, current: Message): seq<Message> {
    if merged != [] && Last(merged).role == current.role then Init(merged) + [Joined(Last(merged), current)]
    else merged + [current]
  }

  function Merge(messages: seq<Message>): seq<Message> {
    if messages == [] then [] else MergeInto(Merge(Init(messages)), Last(messages))
  }

  method MergeConsecutiveSameRole(messages: seq<Message>) returns (merged: seq<Message>)
    ensures merged == Merge(messages)
  {
    merged := [];
    for i := 0 to |messages|
      invariant merged == Merge(messages[..i])
    {
      var current := messages[i];
      assert Init(messages[..i + 1]) == messages[..i];
      if merged != [] && Last(merged).role == current.role {
        var previous := Last(merged);
        if previous.turnScoped != current.turnScoped {
          previous := previous.(turnScoped := false);
        }
        if previous.content.PlainContent? && current.content.PlainContent? && !current.role.User? {
          previous := previous.(content := PlainContent(previous.content.text + "\n\n" + current.content.text));
        } else {
          previous := previous.(content := BlockContent(BlocksOf(previous.content) + BlocksOf(current.content)));
        }
        merged := Init(merged) + [previous];
      } else {
        merged := merged + [current];
      }
    }
    assert messages[..|messages|] == messages;
  }

  // ── Shape ─────────────────────────────────────────────────────────

  ghost predicate Alternates(messages: seq<Message>) {
    forall i :: 0 <= i < |messages| - 1 ==> messages[i].role != messages[i + 1].role
  }

  lemma {:induction false} MergedAlternates(messages: seq<Message>)
    ensures Alternates(Merge(messages))
    ensures Merge(messages) == [] <==> messages == []
  {
    if messages != [] {
      MergedAlternates(Init(messages));
    }
  }

  lemma {:induction false} AlternatingIsMerged(messages: seq<Message>)
    requires Alternates(messages)
    ensures Merge(messages) == messages
  {
    if messages != [] {
      var front := Init(messages);
      assert forall i :: 0 <= i < |front| ==> front[i] == messages[i];
      AlternatingIsMerged(front);
      assert front != [] ==> messages[|messages| - 2].role != messages[|messages| - 1].role;
      assert front + [Last(messages)] == messages;
    }
  }

  lemma MergingTwiceChangesNothing(messages: seq<Message>)
    ensures Merge(Merge(messages)) == Merge(messages)
  {
    MergedAlternates(messages);
    AlternatingIsMerged(Merge(messages));
  }

  // ── Which messages make up a turn ─────────────────────────────────

  /** A run of one role is one turn, turn-scoped only if every part is. */
  lemma {:induction false} RunMergesToOne(run: seq<Message>)
    requires run != [] && forall i :: 0 <= i < |run| ==> run[i].role == run[0].role
    ensures |Merge(run)| == 1 && Merge(run)[0].role == run[0].role
    ensures Merge(run)[0].turnScoped <==> forall i :: 0 <= i < |run| ==> run[i].turnScoped
  {
    if |run| == 1 {
      assert Init(run) == [];
    } else {
      var front := Init(run);
      assert forall i :: 0 <= i < |front| ==> front[i] == run[i];
      RunMergesToOne(front);
      assert forall i :: 0 <= i < |run| ==> i < |front| || run[i] == Last(run);
    }
  }

  /** The texts of a run, a blank line between each two. */
  function Paragraphs(run: seq<Message>): string
    requires run != [] && forall i :: 0 <= i < |run| ==> run[i].content.PlainContent?
  {
    if |run| == 1 then run[0].content.text else run[0].content.text + "\n\n" + Paragraphs(run[1..])
  }

  lemma {:induction false} ParagraphsSnoc(front: seq<Message>, last: Message)
    requires front != [] && last.content.PlainContent? && forall i :: 0 <= i < |front| ==> front[i].content.PlainContent?
    ensures Paragraphs(front + [last]) == Paragraphs(front) + "\n\n" + last.content.text
  {
    var run := front + [last];
    assert run[0] == front[0] && run[1..] == front[1..] + [last];
    if |front| == 1 {
      assert run[1..] == [last];
    } else {
      ParagraphsSnoc(front[1..], last);
      Regroup(front[0].content.text + "\n\n", Paragraphs(front[1..]), "\n\n" + last.content.text);
      Regroup(Paragraphs(front[1..]), "\n\n", last.content.text);
      Regroup(Paragraphs(front), "\n\n", last.content.text);
    }
  }

  /** A run of strings that are not the user's is one string. */
  lemma {:induction false} PlainRunIsOneText(run: seq<Message>)
    requires run != [] && !run[0].role.User? && forall i :: 0 <= i < |run| ==> run[i].role == run[0].role && run[i].content.PlainContent?
    ensures |Merge(run)| == 1 && Merge(run)[0].content == PlainContent(Paragraphs(run))
  {
    RunMergesToOne(run);
    if |run| == 1 {
      assert Init(run) == [];
    } else {
      var front := Init(run);
      assert forall i :: 0 <= i < |front| ==> front[i] == run[i];
      RunMergesToOne(front);
      PlainRunIsOneText(front);
      InitAndLast(run);
      ParagraphsSnoc(front, Last(run));
    }
  }

  /** A change of role separates: what comes before it and what comes after are merged on their own. */
  lemma {:induction false} MergeSplitsAtRoleChange(a: seq<Message>, b: seq<Message>)
    requires a != [] && b != [] && Last(a).role != b[0].role
    ensures Merge(a + b) == Merge(a) + Merge(b)
  {
    MergedEndsAlike(a);
    if |b| == 1 {
      assert Init(a + b) == a && Last(a + b) == b[0] && Init(b) == [];
    } else {
      MergeSplitsAtRoleChange(a, Init(b));
      assert Init(a + b) == a + Init(b) && Last(a + b) == Last(b);
      MergedAlternates(Init(b));
      MergingBehind(Merge(a), Merge(Init(b)), Last(b));
    }
  }

  lemma MergingBehind(front: seq<Message>, merged: seq<Message>, current: Message)
    requires merged != []
    ensures MergeInto(front + merged, current) == front + MergeInto(merged, current)
  {
    assert Init(front + merged) == front + Init(merged) && Last(front + merged) == Last(merged);
  }

  lemma MergedEndsAlike(messages: seq<Message>)
    requires messages != []
    ensures Merge(messages) != [] && Last(Merge(messages)).role == Last(messages).role
  {
  }

  // ── What is sent, as the prompt cache sees it ─────────────────────

  datatype Sent = Sent(role: Role, block: Block)

  function SentBlocks(role: Role, blocks: seq<Block>): seq<Sent> {
    if blocks == [] then [] else SentBlocks(role, Init(blocks)) + [Sent(role, Last(blocks))]
  }

  function SentBy(message: Message): seq<Sent> {
    SentBlocks(message.role, BlocksOf(message.content))
  }

  /** The role and block stream of a request: a cached prefix of it must stay a prefix. */
  function Stream(messages: seq<Message>): seq<Sent> {
    if messages == [] then [] else Stream(Init(messages)) + SentBy(Last(messages))
  }

  /** The messages up to the last one from the user. */
  function UpToLastUser(messages: seq<Message>): seq<Message> {
    if messages == [] || Last(messages).role.User? then messages else UpToLastUser(Init(messages))
  }

  lemma {:induction false} SentBlocksAppend(role: Role, a: seq<Block>, b: seq<Block>)
    ensures SentBlocks(role, a + b) == SentBlocks(role, a) + SentBlocks(role, b)
  {
    if b == [] {
      assert a + b == a;
    } else {
      SentBlocksAppend(role, a, Init(b));
      assert Init(a + b) == a + Init(b) && Last(a + b) == Last(b);
    }
  }

  lemma {:induction false} StreamAppends(a: seq<Message>, b: seq<Message>)
    ensures Stream(a + b) == Stream(a) + Stream(b)
  {
    if b == [] {
      assert a + b == a;
    } else {
      var last := SentBy(Last(b));
      StreamAppends(a, Init(b));
      assert Init(a + b) == a + Init(b) && Last(a + b) == Last(b);
      assert Stream(a) + Stream(Init(b)) + last == Stream(a) + (Stream(Init(b)) + last);
    }
  }

  lemma StreamOfOne(message: Message)
    ensures Stream([message]) == SentBy(message)
  {
    assert Init([message]) == [];
  }

  lemma UserJoinAppends(previous: Message, current: Message)
    requires previous.role.User? && current.role.User?
    ensures SentBy(Joined(previous, current)) == SentBy(previous) + SentBy(current)
  {
    SentBlocksAppend(User, BlocksOf(previous.content), BlocksOf(current.content));
  }

  /** `cached` survives in `messages`: all but its last message unchanged, that one a user turn that may have grown. */
  ghost predicate Survives(cached: seq<Message>, messages: seq<Message>) {
    cached == [] ||
    (&& |cached| <= |messages| && Init(cached) == messages[..|cached| - 1]
     && messages[|cached| - 1].role.User? && SentBy(Last(cached)) <= SentBy(messages[|cached| - 1]))
  }

  lemma StreamOfParts(before: seq<Message>, message: Message, after: seq<Message>)
    ensures Stream(before + [message] + after) == Stream(before) + SentBy(message) + Stream(after)
  {
    StreamAppends(before + [message], after);
    StreamAppends(before, [message]);
    StreamOfOne(message);
  }

  lemma CutAt<T>(s: seq<T>, n: nat)
    requires n < |s|
    ensures s == s[..n] + [s[n]] + s[n + 1..]
  {
  }

  lemma SurvivingIsPrefix(cached: seq<Message>, messages: seq<Message>)
    requires Survives(cached, messages)
    ensures Stream(cached) <= Stream(messages)
  {
    if cached != [] {
      var n := |cached| - 1;
      CutAt(messages, n);
      StreamOfParts(messages[..n], messages[n], messages[n + 1..]);
      PrefixGrows(Stream(Init(cached)), SentBy(Last(cached)), SentBy(messages[n]), Stream(messages[n + 1..]));
    }
  }

  lemma PrefixGrows(front: seq<Sent>, last: seq<Sent>, grown: seq<Sent>, back: seq<Sent>)
    requires last <= grown
    ensures front + last <= front + grown + back
  {
  }

  lemma MergingSurvives(cached: seq<Message>, merged: seq<Message>, current: Message)
    requires Survives(cached, merged)
    ensures Survives(cached, MergeInto(merged, current))
  {
    if cached != [] && merged != [] && Last(merged).role == current.role && |cached| == |merged| {
      UserJoinAppends(Last(merged), current);
      PrefixTransitive(SentBy(Last(cached)), SentBy(Last(merged)), SentBy(current));
    }
  }

  lemma PrefixTransitive(a: seq<Sent>, b: seq<Sent>, more: seq<Sent>)
    requires a <= b
    ensures a <= b + more
  {
  }

  lemma {:induction false} UpToLastUserSurvives(messages: seq<Message>)
    ensures Survives(UpToLastUser(messages), messages)
  {
    if messages != [] && !Last(messages).role.User? {
      var front := Init(messages);
      UpToLastUserSurvives(front);
      assert forall i :: 0 <= i < |front| ==> front[i] == messages[i];
    }
  }

  lemma {:induction false} AppendingSurvives(cached: seq<Message>, xs: seq<Message>, ys: seq<Message>)
    requires Survives(cached, Merge(xs))
    ensures Survives(cached, Merge(xs + ys))
  {
    if ys == [] {
      assert xs + ys == xs;
    } else {
      AppendingSurvives(cached, xs, Init(ys));
      assert Init(xs + ys) == xs + Init(ys) && Last(xs + ys) == Last(ys);
      MergingSurvives(cached, Merge(xs + Init(ys)), Last(ys));
    }
  }

  /** Appending messages never disturbs what was sent up to the last user message. */
  lemma AppendingKeepsCachedPrefix(xs: seq<Message>, ys: seq<Message>)
    ensures Stream(UpToLastUser(Merge(xs))) <= Stream(Merge(xs + ys))
  {
    UpToLastUserSurvives(Merge(xs));
    AppendingSurvives(UpToLastUser(Merge(xs)), xs, ys);
    SurvivingIsPrefix(UpToLastUser(Merge(xs)), Merge(xs + ys));
  }

  // ── User blocks are never joined ──────────────────────────────────

  function UserPart(sent: seq<Sent>): seq<Sent> {
    if sent == [] then [] else UserPart(Init(sent)) + (if Last(sent).role.User? then [Last(sent)] else [])
  }

  lemma {:induction false} UserPartAppends(a: seq<Sent>, b: seq<Sent>)
    ensures UserPart(a + b) == UserPart(a) + UserPart(b)
  {
    if b == [] {
      assert a + b == a;
    } else {
      UserPartAppends(a, Init(b));
      assert Init(a + b) == a + Init(b) && Last(a + b) == Last(b);
    }
  }

  lemma {:induction false} OthersSendNoUserPart(role: Role, blocks: seq<Block>)
    requires !role.User?
    ensures UserPart(SentBlocks(role, blocks)) == []
  {
    if blocks != [] {
      OthersSendNoUserPart(role, Init(blocks));
      assert Init(SentBlocks(role, blocks)) == SentBlocks(role, Init(blocks));
    }
  }

  lemma MergeIntoKeepsUserPart(merged: seq<Message>, current: Message)
    ensures UserPart(Stream(MergeInto(merged, current))) == UserPart(Stream(merged)) + UserPart(SentBy(current))
  {
    var after := MergeInto(merged, current);
    if merged != [] && Last(merged).role == current.role {
      var previous := Last(merged);
      var joined := Joined(previous, current);
      assert Init(after) == Init(merged) && Last(after) == joined;
      UserPartAppends(Stream(Init(merged)), SentBy(joined));
      UserPartAppends(Stream(Init(merged)), SentBy(previous));
      if current.role.User? {
        UserJoinAppends(previous, current);
        UserPartAppends(SentBy(previous), SentBy(current));
      } else {
        OthersSendNoUserPart(joined.role, BlocksOf(joined.content));
        OthersSendNoUserPart(previous.role, BlocksOf(previous.content));
        OthersSendNoUserPart(current.role, BlocksOf(current.content));
      }
    } else {
      assert Init(after) == merged && Last(after) == current;
      UserPartAppends(Stream(merged), SentBy(current));
    }
  }

  /** Every user block of the input is sent, as a block of its own, in order; merging adds none. */
  lemma {:induction false} UserBlocksAreKept(messages: seq<Message>)
    ensures UserPart(Stream(Merge(messages))) == UserPart(Stream(messages))
  {
    if messages != [] {
      UserBlocksAreKept(Init(messages));
      MergeIntoKeepsUserPart(Merge(Init(messages)), Last(messages));
      UserPartAppends(Stream(Init(messages)), SentBy(Last(messages)));
    }
  }
}
