/**
 * The repair that puts lost image-only replies back into a stored
 * conversation: each goes right after the user message it answered.
 */
module RestoreReplies {
  import opened Prelude

  datatype Role = User | Assistant | OtherRole

  /** A stored message; text that is not a string reads as "", a missing or unreadable time as None. */
  datatype StoredMessage = StoredMessage(
    role: Role,
    content: string,
    rawContent: string,
    images: seq<string>,
    timestamp: Option<int>,
    requestId: string,
    thinking: string)

  datatype LostReply = LostReply(
    requestId: string,
    createdAt: Option<int>,
    prompt: string,
    images: seq<string>,
    thinking: string)

  const SERVER_STAMP_SLACK_MILLISECONDS := 5_000

  function ReplyMessage(reply: LostReply): StoredMessage {
    StoredMessage(Assistant, "", "", reply.images, reply.createdAt, reply.requestId, reply.thinking)
  }

  predicate IsAnswered(messages: seq<StoredMessage>, index: nat) {
    index + 1 < |messages| && messages[index + 1].role.Assistant?
  }

  predicate CarriesPrompt(message: StoredMessage, reply: LostReply) {
    message.role.User? && (reply.prompt == message.content || reply.prompt == message.rawContent)
  }

  predicate SentTooLate(message: StoredMessage, reply: LostReply) {
    && message.timestamp.Some? && reply.createdAt.Some?
    && message.timestamp.value > reply.createdAt.value + SERVER_STAMP_SLACK_MILLISECONDS
  }

  /** An unanswered user message with the reply's prompt, sent before the reply was logged. */
  predicate IsCandidate(messages: seq<StoredMessage>, index: nat, reply: LostReply)
    requires index < |messages|
  {
    CarriesPrompt(messages[index], reply) && !IsAnswered(messages, index) && !SentTooLate(messages[index], reply)
  }

  ghost predicate Unmatched(messages: seq<StoredMessage>, reply: LostReply) {
    forall i :: 0 <= i < |messages| ==> !IsCandidate(messages, i, reply)
  }

  /** The newest candidate, or -1. */
  method AnsweredUserIndex(messages: seq<StoredMessage>, reply: LostReply) returns (found: int)
    ensures found == NewestCandidate(messages, reply, |messages|)
  {
    found := -1;
    for index := 0 to |messages|
      invariant found == NewestCandidate(messages, reply, index)
    {
      var message := messages[index];
      if !CarriesPrompt(message, reply) {
        continue;
      }
      if IsAnswered(messages, index) {
        continue;
      }
      if SentTooLate(message, reply) {
        continue;
      }
      found := index;
    }
  }

  /** The last candidate before `end`. */
  function NewestCandidate(messages: seq<StoredMessage>, reply: LostReply, end: nat): (found: int)
    requires end <= |messages|
    ensures -1 <= found < end
    ensures found >= 0 ==> IsCandidate(messages, found, reply)
    ensures forall i :: found < i < end ==> !IsCandidate(messages, i, reply)
  {
    if end == 0 then -1
    else if IsCandidate(messages, end - 1, reply) then end - 1
    else NewestCandidate(messages, reply, end - 1)
  }

  // ── The repair ────────────────────────────────────────────────────

  predicate IsStored(messages: seq<StoredMessage>, image: string) {
    exists i :: 0 <= i < |messages| && messages[i].role.Assistant? && image in messages[i].images
  }

  predicate AllStored(messages: seq<StoredMessage>, reply: LostReply) {
    forall k :: 0 <= k < |reply.images| ==> IsStored(messages, reply.images[k])
  }

  /** The storage said that an image of the reply is gone. */
  predicate ImageGone(gone: string -> bool, reply: LostReply) {
    exists k :: 0 <= k < |reply.images| && gone(reply.images[k])
  }

  function InsertAfter(messages: seq<StoredMessage>, index: nat, message: StoredMessage): seq<StoredMessage>
    requires index < |messages|
  {
    messages[..index + 1] + [message] + messages[index + 1..]
  }

  function RestoreOne(messages: seq<StoredMessage>, reply: LostReply, gone: string -> bool): seq<StoredMessage> {
    var userIndex := NewestCandidate(messages, reply, |messages|);
    if AllStored(messages, reply) || ImageGone(gone, reply) || userIndex < 0 then messages
    else InsertAfter(messages, userIndex, ReplyMessage(reply))
  }

  function RestoreAll(messages: seq<StoredMessage>, replies: seq<LostReply>, gone: string -> bool): seq<StoredMessage> {
    if replies == [] then messages
    else RestoreOne(RestoreAll(messages, Init(replies), gone), Last(replies), gone)
  }

  /** One conversation: the list grows in place while the set of stored images follows it. */
  method RestoreConversation(original: seq<StoredMessage>, replies: seq<LostReply>, gone: string -> bool)
    returns (messages: seq<StoredMessage>, inserted: nat)
    ensures messages == RestoreAll(original, replies, gone)
    ensures |messages| == |original| + inserted
  {
    messages, inserted := original, 0;
    var storedImages := set i, k | 0 <= i < |messages| && 0 <= k < |messages[i].images| && messages[i].role.Assistant? :: messages[i].images[k];
    for r := 0 to |replies|
      invariant messages == RestoreAll(original, replies[..r], gone)
      invariant forall image :: image in storedImages <==> IsStored(messages, image)
      invariant |messages| == |original| + inserted
    {
      var reply := replies[r];
      assert Init(replies[..r + 1]) == replies[..r] && Last(replies[..r + 1]) == reply;
      if forall k :: 0 <= k < |reply.images| ==> reply.images[k] in storedImages {
        continue;
      }
      if exists k :: 0 <= k < |reply.images| && gone(reply.images[k]) {
        continue;
      }
      var userIndex := AnsweredUserIndex(messages, reply);
      if userIndex < 0 {
        continue;
      }
      InsertingStores(messages, userIndex, ReplyMessage(reply));
      messages := InsertAfter(messages, userIndex, ReplyMessage(reply));
      storedImages := storedImages + (set k | 0 <= k < |reply.images| :: reply.images[k]);
      inserted := inserted + 1;
    }
    assert replies[..|replies|] == replies;
  }

  lemma InsertingStores(messages: seq<StoredMessage>, index: nat, message: StoredMessage)
    requires index < |messages| && message.role.Assistant?
    ensures forall image :: IsStored(InsertAfter(messages, index, message), image) <==> IsStored(messages, image) || image in message.images
  {
    var after := InsertAfter(messages, index, message);
    forall image | IsStored(messages, image) || image in message.images
      ensures IsStored(after, image)
    {
      if image in message.images {
        assert after[index + 1] == message;
      } else {
        var i :| 0 <= i < |messages| && messages[i].role.Assistant? && image in messages[i].images;
        assert after[if i <= index then i else i + 1] == messages[i];
      }
    }
  }

  // ── Running it twice ──────────────────────────────────────────────

  /** Nothing is left to insert for this reply. */
  ghost predicate IsSettled(messages: seq<StoredMessage>, reply: LostReply, gone: string -> bool) {
    AllStored(messages, reply) || ImageGone(gone, reply) || Unmatched(messages, reply)
  }

  ghost predicate AllSettled(messages: seq<StoredMessage>, replies: seq<LostReply>, gone: string -> bool) {
    forall r :: 0 <= r < |replies| ==> IsSettled(messages, replies[r], gone)
  }

  /** Inserting a reply only takes candidates away. */
  lemma InsertingUnmatches(messages: seq<StoredMessage>, index: nat, message: StoredMessage, reply: LostReply)
    requires index < |messages| && message.role.Assistant? && Unmatched(messages, reply)
    ensures Unmatched(InsertAfter(messages, index, message), reply)
  {
    var after := InsertAfter(messages, index, message);
    forall i | 0 <= i < |after|
      ensures !IsCandidate(after, i, reply)
    {
      if i <= index {
        assert !IsCandidate(messages, i, reply);
      } else if i > index + 1 {
        assert !IsCandidate(messages, i - 1, reply);
      }
    }
  }

  lemma SettledStays(messages: seq<StoredMessage>, other: LostReply, reply: LostReply, gone: string -> bool)
    requires IsSettled(messages, reply, gone)
    ensures IsSettled(RestoreOne(messages, other, gone), reply, gone)
  {
    var after := RestoreOne(messages, other, gone);
    if after != messages {
      var index := NewestCandidate(messages, other, |messages|);
      InsertingStores(messages, index, ReplyMessage(other));
      if Unmatched(messages, reply) {
        InsertingUnmatches(messages, index, ReplyMessage(other), reply);
      }
    }
  }

  lemma RestoringSettles(messages: seq<StoredMessage>, reply: LostReply, gone: string -> bool)
    ensures IsSettled(RestoreOne(messages, reply, gone), reply, gone)
  {
    var index := NewestCandidate(messages, reply, |messages|);
    if index >= 0 {
      InsertingStores(messages, index, ReplyMessage(reply));
    }
  }

  lemma {:induction false} EveryReplyIsSettled(messages: seq<StoredMessage>, replies: seq<LostReply>, gone: string -> bool)
    ensures AllSettled(RestoreAll(messages, replies, gone), replies, gone)
  {
    if replies != [] {
      var before := RestoreAll(messages, Init(replies), gone);
      EveryReplyIsSettled(messages, Init(replies), gone);
      RestoringSettles(before, Last(replies), gone);
      forall r | 0 <= r < |replies|
        ensures IsSettled(RestoreAll(messages, replies, gone), replies[r], gone)
      {
        if r < |replies| - 1 {
          assert Init(replies)[r] == replies[r];
          SettledStays(before, Last(replies), replies[r], gone);
        }
      }
    }
  }

  lemma {:induction false} SettledNeedsNothing(messages: seq<StoredMessage>, replies: seq<LostReply>, gone: string -> bool)
    requires AllSettled(messages, replies, gone)
    ensures RestoreAll(messages, replies, gone) == messages
  {
    if replies != [] {
      forall r | 0 <= r < |Init(replies)|
        ensures IsSettled(messages, Init(replies)[r], gone)
      {
        assert Init(replies)[r] == replies[r];
      }
      SettledNeedsNothing(messages, Init(replies), gone);
      assert IsSettled(messages, replies[|replies| - 1], gone);
    }
  }

  /** Given the same answers from storage, a second run inserts nothing. */
  lemma RestoringTwiceChangesNothing(messages: seq<StoredMessage>, replies: seq<LostReply>, gone: string -> bool)
    ensures RestoreAll(RestoreAll(messages, replies, gone), replies, gone) == RestoreAll(messages, replies, gone)
  {
    EveryReplyIsSettled(messages, replies, gone);
    SettledNeedsNothing(RestoreAll(messages, replies, gone), replies, gone);
  }

  // ── What the repaired conversation looks like ─────────────────────

  /** The messages whose origin is the conversation itself, in order. */
  function Originals(messages: seq<StoredMessage>, origins: seq<Option<LostReply>>): seq<StoredMessage>
    requires |messages| == |origins|
  {
    if messages == [] then []
    else Originals(Init(messages), Init(origins)) + (if Last(origins).None? then [Last(messages)] else [])
  }

  /** The reply itself: nothing said, its images, and when, for which request and with what thinking it was made. */
  ghost predicate IsReply(message: StoredMessage, reply: LostReply) {
    && message.role == Assistant && |message.content| == 0 && |message.rawContent| == 0
    && message.images == reply.images && message.timestamp == reply.createdAt
    && message.requestId == reply.requestId && message.thinking == reply.thinking
  }

  /**
   * Position `i` holds a restored reply: right after a user message of the
   * conversation itself that carries its prompt, and before no other answer.
   */
  ghost predicate IsRestoredAt(messages: seq<StoredMessage>, origins: seq<Option<LostReply>>, i: nat)
    requires |messages| == |origins| && i < |messages| && origins[i].Some?
  {
    && IsReply(messages[i], origins[i].value)
    && i > 0 && origins[i - 1].None? && CarriesPrompt(messages[i - 1], origins[i].value)
    && !SentTooLate(messages[i - 1], origins[i].value)
    && (i + 1 < |messages| ==> origins[i + 1].None? && !messages[i + 1].role.Assistant?)
  }

  ghost predicate IsRepair(original: seq<StoredMessage>, messages: seq<StoredMessage>, origins: seq<Option<LostReply>>) {
    && |messages| == |origins|
    && Originals(messages, origins) == original
    && forall i :: 0 <= i < |messages| && origins[i].Some? ==> IsRestoredAt(messages, origins, i)
  }

  lemma {:induction false} OriginalsAppend(a: seq<StoredMessage>, ao: seq<Option<LostReply>>, b: seq<StoredMessage>, bo: seq<Option<LostReply>>)
    requires |a| == |ao| && |b| == |bo|
    ensures Originals(a + b, ao + bo) == Originals(a, ao) + Originals(b, bo)
  {
    if b == [] {
      assert a + b == a && ao + bo == ao;
    } else {
      OriginalsAppend(a, ao, Init(b), Init(bo));
      assert Init(a + b) == a + Init(b) && Init(ao + bo) == ao + Init(bo);
    }
  }

  lemma InsertedIsSkipped(front: seq<StoredMessage>, frontOrigins: seq<Option<LostReply>>, message: StoredMessage, reply: LostReply)
    requires |front| == |frontOrigins|
    ensures Originals(front + [message], frontOrigins + [Some(reply)]) == Originals(front, frontOrigins)
  {
    assert Init(front + [message]) == front && Init(frontOrigins + [Some(reply)]) == frontOrigins;
  }

  lemma InsertingKeepsOriginals(messages: seq<StoredMessage>, origins: seq<Option<LostReply>>, index: nat, message: StoredMessage, reply: LostReply)
    requires |messages| == |origins| && index < |messages|
    ensures Originals(InsertAfter(messages, index, message), origins[..index + 1] + [Some(reply)] + origins[index + 1..]) == Originals(messages, origins)
  {
    var front, back := messages[..index + 1], messages[index + 1..];
    var frontOrigins, backOrigins := origins[..index + 1], origins[index + 1..];
    InsertedIsSkipped(front, frontOrigins, message, reply);
    OriginalsAppend(front + [message], frontOrigins + [Some(reply)], back, backOrigins);
    OriginalsAppend(front, frontOrigins, back, backOrigins);
    SplitAt(messages, index + 1);
    SplitAt(origins, index + 1);
  }

  function OriginsAfter(origins: seq<Option<LostReply>>, index: nat, reply: LostReply): seq<Option<LostReply>>
    requires index < |origins|
  {
    origins[..index + 1] + [Some(reply)] + origins[index + 1..]
  }

  lemma InsertingKeepsPlaces(messages: seq<StoredMessage>, origins: seq<Option<LostReply>>, index: nat, reply: LostReply, i: nat)
    requires |messages| == |origins| && index < |messages| && IsCandidate(messages, index, reply)
    requires forall j :: 0 <= j < |messages| && origins[j].Some? ==> IsRestoredAt(messages, origins, j)
    requires i < |messages| + 1 && OriginsAfter(origins, index, reply)[i].Some?
    ensures IsRestoredAt(InsertAfter(messages, index, ReplyMessage(reply)), OriginsAfter(origins, index, reply), i)
  {
    var after, next := InsertAfter(messages, index, ReplyMessage(reply)), OriginsAfter(origins, index, reply);
    InsertionShifts(messages, index, ReplyMessage(reply));
    InsertionShifts(origins, index, Some(reply));
    if i <= index {
      assert IsRestoredAt(messages, origins, i);
    } else if i > index + 1 {
      assert IsRestoredAt(messages, origins, i - 1);
    } else {
      assert forall j :: 0 <= j < |origins| && origins[j].Some? ==> messages[j].role.Assistant?;
    }
  }

  lemma InsertionShifts<T>(s: seq<T>, index: nat, x: T)
    requires index < |s|
    ensures var t := s[..index + 1] + [x] + s[index + 1..];
      && |t| == |s| + 1 && t[index + 1] == x
      && (forall j :: 0 <= j <= index ==> t[j] == s[j])
      && (forall j :: index + 1 < j < |t| ==> t[j] == s[j - 1])
  {
  }

  lemma RestoringOneRepairs(original: seq<StoredMessage>, messages: seq<StoredMessage>, origins: seq<Option<LostReply>>, reply: LostReply, gone: string -> bool)
    returns (next: seq<Option<LostReply>>)
    requires IsRepair(original, messages, origins)
    ensures IsRepair(original, RestoreOne(messages, reply, gone), next)
  {
    var after := RestoreOne(messages, reply, gone);
    next := origins;
    if after != messages {
      var index := NewestCandidate(messages, reply, |messages|);
      next := OriginsAfter(origins, index, reply);
      InsertingKeepsOriginals(messages, origins, index, ReplyMessage(reply), reply);
      forall i | 0 <= i < |after| && next[i].Some?
        ensures IsRestoredAt(after, next, i)
      {
        InsertingKeepsPlaces(messages, origins, index, reply, i);
      }
    }
  }

  /**
   * Original messages stay, in order; every inserted reply directly follows
   * its own user message, one no assistant had answered.
   */
  lemma {:induction false} RestoringRepairs(original: seq<StoredMessage>, replies: seq<LostReply>, gone: string -> bool)
    returns (origins: seq<Option<LostReply>>)
    ensures IsRepair(original, RestoreAll(original, replies, gone), origins)
  {
    if replies == [] {
      origins := seq(|original|, _ => None);
      AllOriginal(original, origins);
    } else {
      origins := RestoringRepairs(original, Init(replies), gone);
      origins := RestoringOneRepairs(original, RestoreAll(original, Init(replies), gone), origins, Last(replies), gone);
    }
  }

  lemma {:induction false} AllOriginal(messages: seq<StoredMessage>, origins: seq<Option<LostReply>>)
    requires |messages| == |origins| && forall i :: 0 <= i < |origins| ==> origins[i].None?
    ensures Originals(messages, origins) == messages
  {
    if messages != [] {
      AllOriginal(Init(messages), Init(origins));
    }
  }

  // ── Which reply goes where ────────────────────────────────────────

  /** A user's message with the reply's prompt, not answered by the next, nor sent five seconds or more after the reply was logged. */
  ghost predicate AsksFor(messages: seq<StoredMessage>, at: nat, reply: LostReply) {
    && at < |messages| && messages[at].role == User
    && (messages[at].content == reply.prompt || messages[at].rawContent == reply.prompt)
    && (at + 1 < |messages| ==> messages[at + 1].role != Assistant)
    && (messages[at].timestamp.Some? && reply.createdAt.Some? ==> messages[at].timestamp.value <= reply.createdAt.value + 5000)
  }

  ghost predicate IsShown(messages: seq<StoredMessage>, image: string) {
    exists i :: 0 <= i < |messages| && messages[i].role == Assistant && image in messages[i].images
  }

  /** Some image of the reply is shown nowhere, none of them is gone, and a message asks for it. */
  ghost predicate IsMissing(messages: seq<StoredMessage>, reply: LostReply, gone: string -> bool) {
    && (exists image :: image in reply.images && !IsShown(messages, image))
    && (forall image :: image in reply.images ==> !gone(image))
    && exists at: nat :: AsksFor(messages, at, reply)
  }

  lemma CandidatesAskFor(messages: seq<StoredMessage>, reply: LostReply)
    ensures forall at: nat :: AsksFor(messages, at, reply) <==> at < |messages| && IsCandidate(messages, at, reply)
  {
  }

  lemma StoredIsShown(messages: seq<StoredMessage>, reply: LostReply)
    ensures AllStored(messages, reply) <==> forall image :: image in reply.images ==> IsShown(messages, image)
  {
    forall image ensures IsStored(messages, image) <==> IsShown(messages, image) {
    }
    if AllStored(messages, reply) {
      forall image | image in reply.images ensures IsShown(messages, image) {
        var k :| 0 <= k < |reply.images| && reply.images[k] == image;
        assert IsStored(messages, reply.images[k]);
      }
    }
    if forall image :: image in reply.images ==> IsShown(messages, image) {
      forall k | 0 <= k < |reply.images| ensures IsStored(messages, reply.images[k]) {
        assert IsShown(messages, reply.images[k]);
      }
    }
  }

  lemma GoneIsGone(gone: string -> bool, reply: LostReply)
    ensures ImageGone(gone, reply) <==> exists image :: image in reply.images && gone(image)
  {
    if ImageGone(gone, reply) {
      var k :| 0 <= k < |reply.images| && gone(reply.images[k]);
      assert reply.images[k] in reply.images;
    }
  }

  /** A missing reply goes right behind the newest message that asks for it; any other is not put back. */
  lemma MissingIsPutBack(messages: seq<StoredMessage>, reply: LostReply, gone: string -> bool) returns (at: nat)
    ensures var after := RestoreOne(messages, reply, gone);
      if IsMissing(messages, reply, gone) then
        && AsksFor(messages, at, reply) && (forall j: nat :: AsksFor(messages, j, reply) ==> j <= at)
        && |after| == |messages| + 1 && IsReply(after[at + 1], reply)
        && after[..at + 1] == messages[..at + 1] && after[at + 2..] == messages[at + 1..]
      else
        after == messages
  {
    var newest := NewestCandidate(messages, reply, |messages|);
    CandidatesAskFor(messages, reply);
    StoredIsShown(messages, reply);
    GoneIsGone(gone, reply);
    at := if newest < 0 then 0 else newest;
    assert newest >= 0 ==> AsksFor(messages, newest, reply);
  }
}
