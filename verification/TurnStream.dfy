/**
 * The turn stream: a response body read chunk by chunk, cut into lines, each
 * `data:` line one event. This is the `data` field of the event stream
 * format, section 9.2 of the WHATWG HTML Living Standard.
 */
module TurnStream {
  import opened Prelude

  /** What one payload becomes: None when it is not JSON or of a type the protocol does not know. */
  type Accept<!Event> = string -> Option<Event>

  function TrimCarriageReturn(line: string): string {
    if line != [] && Last(line) == '\r' then Init(line) else line
  }

  /** A line's payload: what follows `data:`, one space after the colon dropped. */
  function Payload(line: string): Option<string> {
    if !("data:" <= line) then None
    else Some(if "data: " <= line then line[6..] else line[5..])
  }

  function ParseLine<Event>(accept: Accept<Event>, line: string): seq<Event> {
    match Payload(line)
    case None => []
    case Some(payload) => match accept(payload) case None => [] case Some(event) => [event]
  }

  // ── The whole text at once ────────────────────────────────────────

  /** The text cut at every line feed; what follows the last one is a line too. */
  function Lines(text: string): (lines: seq<string>)
    ensures lines != []
  {
    if text == [] then [""]
    else
      var rest := Lines(text[1..]);
      if text[0] == '\n' then [""] + rest else [[text[0]] + rest[0]] + rest[1..]
  }

  function ParseLines<Event>(accept: Accept<Event>, lines: seq<string>): seq<Event> {
    if lines == [] then []
    else ParseLine(accept, TrimCarriageReturn(lines[0])) + ParseLines(accept, lines[1..])
  }

  function ParseText<Event>(accept: Accept<Event>, text: string): seq<Event> {
    ParseLines(accept, Lines(text))
  }

  function Joined(chunks: seq<string>): string {
    if chunks == [] then [] else chunks[0] + Joined(chunks[1..])
  }

  // ── The reader ────────────────────────────────────────────────────

  /** The first line feed, or -1. */
  function IndexOfNewline(text: string): (at: int)
    ensures -1 <= at < |text|
    ensures at >= 0 ==> text[at] == '\n' && '\n' !in text[..at]
    ensures at < 0 ==> '\n' !in text
  {
    if text == [] then -1
    else if text[0] == '\n' then 0
    else
      var rest := IndexOfNewline(text[1..]);
      assert rest >= 0 ==> text[..rest + 1] == [text[0]] + text[1..][..rest];
      if rest < 0 then -1 else rest + 1
  }

  lemma {:induction false} LinesOfOneLine(line: string)
    requires '\n' !in line
    ensures Lines(line) == [line]
  {
    if line != [] {
      assert line == [line[0]] + line[1..];
      LinesOfOneLine(line[1..]);
    }
  }

  /** A line ends at its line feed, whatever comes after. */
  lemma {:induction false} FirstLineEnds(line: string, after: string)
    requires '\n' !in line
    ensures Lines(line + "\n" + after) == [line] + Lines(after)
  {
    var text := line + "\n" + after;
    if line == [] {
      assert text[1..] == after;
    } else {
      assert line == [line[0]] + line[1..];
      assert text[1..] == line[1..] + "\n" + after;
      FirstLineEnds(line[1..], after);
    }
  }

  lemma FirstLineFirst<Event>(accept: Accept<Event>, line: string, after: string)
    requires '\n' !in line
    ensures ParseText(accept, line + "\n" + after) == ParseLine(accept, TrimCarriageReturn(line)) + ParseText(accept, after)
  {
    FirstLineEnds(line, after);
    assert ([line] + Lines(after))[1..] == Lines(after);
  }

  lemma LastLine<Event>(accept: Accept<Event>, line: string)
    requires '\n' !in line
    ensures ParseText(accept, line) == ParseLine(accept, TrimCarriageReturn(line))
  {
    LinesOfOneLine(line);
    var event := ParseLine(accept, TrimCarriageReturn(line));
    assert ParseLines(accept, [line]) == event + ParseLines(accept, [line][1..]);
    assert event + [] == event;
  }

  lemma CutAtNewline(buffered: string, newline: nat, rest: string)
    requires newline < |buffered| && buffered[newline] == '\n'
    ensures buffered + rest == buffered[..newline] + "\n" + (buffered[newline + 1..] + rest)
  {
  }

  lemma TakeLine<Event>(accept: Accept<Event>, buffered: string, newline: nat, rest: string)
    requires newline < |buffered| && buffered[newline] == '\n' && '\n' !in buffered[..newline]
    ensures ParseText(accept, buffered + rest) ==
      ParseLine(accept, TrimCarriageReturn(buffered[..newline])) + ParseText(accept, buffered[newline + 1..] + rest)
  {
    CutAtNewline(buffered, newline, rest);
    FirstLineFirst(accept, buffered[..newline], buffered[newline + 1..] + rest);
  }

  /** One read: `buffered` keeps the unfinished line, `events` are those of the lines taken, whatever `rest` is still to come. */
  method DrainLines<Event>(accept: Accept<Event>, text: string, ghost rest: string) returns (buffered: string, events: seq<Event>)
    ensures '\n' !in buffered
    ensures ParseText(accept, text + rest) == events + ParseText(accept, buffered + rest)
  {
    buffered, events := text, [];
    var newline := IndexOfNewline(buffered);
    while newline != -1
      invariant newline == IndexOfNewline(buffered)
      invariant ParseText(accept, text + rest) == events + ParseText(accept, buffered + rest)
      decreases |buffered|
    {
      TakeLine(accept, buffered, newline, rest);
      var line := ParseLine(accept, TrimCarriageReturn(buffered[..newline]));
      buffered := buffered[newline + 1..];
      Regroup(events, line, ParseText(accept, buffered + rest));
      events := events + line;
      newline := IndexOfNewline(buffered);
    }
  }

  /** What the events so far, one more chunk and the rest of the body come to. */
  ghost predicate Holds<Event>(accept: Accept<Event>, whole: string, events: seq<Event>, buffered: string, rest: string) {
    '\n' !in buffered && ParseText(accept, whole) == events + ParseText(accept, buffered + rest)
  }

  lemma OneMoreChunk<Event>(accept: Accept<Event>, whole: string, events: seq<Event>, before: string, chunk: string, rest: string,
                            drained: seq<Event>, buffered: string)
    requires Holds(accept, whole, events, before, chunk + rest) && '\n' !in buffered
    requires ParseText(accept, before + chunk + rest) == drained + ParseText(accept, buffered + rest)
    ensures Holds(accept, whole, events + drained, buffered, rest)
  {
    Regroup(before, chunk, rest);
    Regroup(events, drained, ParseText(accept, buffered + rest));
  }

  lemma JoinedNext(chunks: seq<string>, i: nat)
    requires i < |chunks|
    ensures Joined(chunks[i..]) == chunks[i] + Joined(chunks[i + 1..])
  {
    assert chunks[i..][1..] == chunks[i + 1..];
  }

  lemma NothingBefore(text: string)
    ensures "" + text == text && text + "" == text
  {
  }

  /** The events of a body are those of its whole text, however it was cut into chunks. */
  method StreamAgentTurn<Event>(accept: Accept<Event>, chunks: seq<string>) returns (events: seq<Event>)
    ensures events == ParseText(accept, Joined(chunks))
  {
    events := [];
    var buffered := "";
    ghost var whole := Joined(chunks);
    NothingBefore(whole);
    assert chunks[0..] == chunks;
    for i := 0 to |chunks|
      invariant Holds(accept, whole, events, buffered, Joined(chunks[i..]))
    {
      ghost var rest, before := Joined(chunks[i + 1..]), buffered;
      JoinedNext(chunks, i);
      var drained: seq<Event>;
      buffered, drained := DrainLines(accept, buffered + chunks[i], rest);
      OneMoreChunk(accept, whole, events, before, chunks[i], rest, drained, buffered);
      events := events + drained;
    }
    NothingBefore(buffered);
    LastLine(accept, buffered);
    events := events + ParseLine(accept, TrimCarriageReturn(buffered));
  }

  // ── What a line yields ────────────────────────────────────────────

  ghost predicate Yields<Event>(accept: Accept<Event>, line: string, events: seq<Event>) {
    forall rest: string :: ParseText(accept, line + "\n" + rest) == events + ParseText(accept, rest)
  }

  /** The event of a payload, if the protocol knows it. */
  ghost predicate IsOf<Event>(accept: Accept<Event>, payload: string, events: seq<Event>) {
    if accept(payload).Some? then events == [accept(payload).value] else events == []
  }

  lemma LineYields<Event>(accept: Accept<Event>, line: string)
    requires '\n' !in line
    ensures Yields(accept, line, ParseLine(accept, TrimCarriageReturn(line)))
  {
    forall rest: string ensures ParseText(accept, line + "\n" + rest) == ParseLine(accept, TrimCarriageReturn(line)) + ParseText(accept, rest) {
      FirstLineFirst(accept, line, rest);
    }
  }

  ghost predicate IsPayload(p: string) {
    '\n' !in p && (p == "" || Last(p) != '\r')
  }

  /** A data line, with or without a space behind the colon and a carriage return at its end, yields its payload's event. */
  lemma DataLineYields<Event>(accept: Accept<Event>, p: string, spaced: bool, returned: bool) returns (events: seq<Event>)
    requires IsPayload(p) && (!spaced && p != "" ==> p[0] != ' ')
    ensures IsOf(accept, p, events)
    ensures Yields(accept, "data:" + (if spaced then " " else "") + p + (if returned then "\r" else ""), events)
  {
    var line := "data:" + (if spaced then " " else "") + p;
    var whole := line + (if returned then "\r" else "");
    assert line[..5] == "data:" && line[5..] == (if spaced then " " else "") + p;
    if spaced {
      assert line[..6] == "data: " && line[6..] == p;
    } else {
      assert line[5..] == p;
      assert |line| > 5 ==> line[5] == p[0];
    }
    assert Last(line) != '\r';
    TrimmedLine(line, returned);
    LineYields(accept, whole);
    events := ParseLine(accept, line);
  }

  lemma TrimmedLine(line: string, returned: bool)
    requires line != "" && Last(line) != '\r'
    ensures TrimCarriageReturn(line + (if returned then "\r" else "")) == line
  {
    NothingMore(line);
    assert Init(line + "\r") == line;
  }

  /** Any other line yields nothing. */
  lemma OtherLineYieldsNothing<Event>(accept: Accept<Event>, line: string)
    requires '\n' !in line && (|line| < 5 || line[..5] != "data:")
    ensures Yields(accept, line, [])
  {
    LineYields(accept, line);
  }
}
