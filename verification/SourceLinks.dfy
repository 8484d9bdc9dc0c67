/** Cited sources become links: each address once, in the order it was first cited. */
module SourceLinks {
  import opened Prelude
  import opened TurnTranslation
  import opened ToolLifecycle

  function Uri(u: Update): seq<string> {
    if u.Link? then [u.uri] else []
  }

  /** The addresses linked, in order. */
  function Uris(updates: seq<Update>): seq<string> {
    FlatMap((u: Update) => Uri(u), updates)
  }

  function Address(source: Source): seq<string> {
    if source.url != "" then [source.url] else []
  }

  function Addresses(sources: seq<Source>): seq<string> {
    FlatMap((source: Source) => Address(source), sources)
  }

  /** The addresses cited by all events, in order. */
  function Cited(bodies: seq<Body>): seq<string> {
    FlatMap((b: Body) => if b.Sources? then Addresses(b.sources) else [], bodies)
  }

  /** What is left of `s` when every repetition is dropped. */
  function Firsts(s: seq<string>): seq<string> {
    if s == [] then [] else if Last(s) in Init(s) then Firsts(Init(s)) else Firsts(Init(s)) + [Last(s)]
  }

  lemma UrisAppend(a: seq<Update>, b: seq<Update>)
    ensures Uris(a + b) == Uris(a) + Uris(b)
  {
    FlatMapAppends((u: Update) => Uri(u), a, b);
  }

  lemma UrisOfOne(u: Update)
    ensures Uris([u]) == Uri(u)
  {
    FlatMapOne((u: Update) => Uri(u), u);
  }

  ghost predicate NoLinks(updates: seq<Update>) {
    forall i :: 0 <= i < |updates| ==> !updates[i].Link?
  }

  lemma {:induction false} NoLinkNoUri(updates: seq<Update>)
    requires NoLinks(updates)
    ensures Uris(updates) == []
  {
    if updates != [] {
      assert forall i :: 0 <= i < |updates| - 1 ==> Init(updates)[i] == updates[i];
      NoLinkNoUri(Init(updates));
    }
  }

  lemma FirstsSnoc(s: seq<string>, x: string)
    ensures Firsts(s + [x]) == if x in s then Firsts(s) else Firsts(s) + [x]
  {
    assert Init(s + [x]) == s;
  }

  lemma {:induction false} FirstsAreDistinct(s: seq<string>)
    ensures Distinct(Firsts(s))
    ensures forall x :: x in Firsts(s) <==> x in s
  {
    if s != [] {
      FirstsAreDistinct(Init(s));
      InitAndLast(s);
    }
  }

  ghost predicate Remembers(s: State, cited: seq<string>) {
    forall x :: x in s.linkedSources <==> x in cited
  }

  /** One batch of sources behind those already cited. */
  lemma {:induction false} LinkingAddsFirsts(s: State, cited: seq<string>, sources: seq<Source>)
    requires Remembers(s, cited)
    ensures var r := Linked(s, sources);
      && Remembers(r.state, cited + Addresses(sources))
      && Firsts(cited) + Uris(r.translated.updates) == Firsts(cited + Addresses(sources))
  {
    if sources == [] {
      assert cited + Addresses(sources) == cited;
      assert Firsts(cited) + Uris([]) == Firsts(cited);
    } else {
      LinkingAddsFirsts(s, cited, Init(sources));
      LinkingOneMore(s, cited, Init(sources), Last(sources));
      InitAndLast(sources);
    }
  }

  lemma AddressesSnoc(sources: seq<Source>, source: Source)
    ensures Addresses(sources + [source]) == Addresses(sources) + Address(source)
  {
    FlatMapAppends((source: Source) => Address(source), sources, [source]);
    FlatMapOne((source: Source) => Address(source), source);
  }

  lemma LinkedSnoc(s: State, sources: seq<Source>, source: Source)
    ensures var before := Linked(s, sources);
      Linked(s, sources + [source])
      == if source.url == "" || source.url in before.state.linkedSources then before
         else Sending(before.state.(linkedSources := before.state.linkedSources + {source.url}),
                      before.translated.updates + [SourceLink(source)])
  {
    assert Init(sources + [source]) == sources;
  }

  /** `url` is new: one more link, at the end. */
  lemma NewAddress(cited: seq<string>, more: seq<string>, linked: seq<Update>, link: Update)
    requires link.Link? && link.uri !in cited + more
    requires Firsts(cited) + Uris(linked) == Firsts(cited + more)
    ensures Firsts(cited) + Uris(linked + [link]) == Firsts(cited + (more + [link.uri]))
  {
    var all := cited + more;
    FirstsSnoc(all, link.uri);
    UrisAppend(linked, [link]);
    UrisOfOne(link);
    assert cited + (more + [link.uri]) == all + [link.uri];
    assert Firsts(cited) + (Uris(linked) + [link.uri]) == Firsts(cited) + Uris(linked) + [link.uri];
  }

  lemma KnownAddress(cited: seq<string>, more: seq<string>, url: string)
    requires url in cited + more
    ensures Firsts(cited + (more + [url])) == Firsts(cited + more)
    ensures forall x :: x in cited + (more + [url]) <==> x in cited + more
  {
    FirstsSnoc(cited + more, url);
    assert cited + (more + [url]) == cited + more + [url];
  }

  lemma LinkingOneMore(s: State, cited: seq<string>, sources: seq<Source>, source: Source)
    requires var before := Linked(s, sources);
      && Remembers(before.state, cited + Addresses(sources))
      && Firsts(cited) + Uris(before.translated.updates) == Firsts(cited + Addresses(sources))
    ensures var r := Linked(s, sources + [source]);
      && Remembers(r.state, cited + Addresses(sources + [source]))
      && Firsts(cited) + Uris(r.translated.updates) == Firsts(cited + Addresses(sources + [source]))
  {
    var more := Addresses(sources);
    var before := Linked(s, sources);
    LinkedSnoc(s, sources, source);
    AddressesSnoc(sources, source);
    if source.url == "" {
      assert more + [] == more;
    } else if source.url in before.state.linkedSources {
      KnownAddress(cited, more, source.url);
    } else {
      NewAddress(cited, more, before.translated.updates, SourceLink(source));
    }
  }

  lemma {:induction false} ClosingsAreNoLinks(tools: seq<ToolState>, status: Status, content: Option<seq<string>>)
    ensures NoLinks(Closings(tools, status, content))
  {
    if tools != [] {
      ClosingsAreNoLinks(Init(tools), status, content);
    }
  }

  ghost predicate LinksNothing(s: State, r: Step) {
    && r.state.linkedSources == s.linkedSources
    && NoLinks(r.translated.updates)
    && !Asked(r.translated).Link?
  }

  function Asked(t: Translated): Update {
    match t.interaction
    case Approval(call) => call
    case PlanReview(call) => call
    case _ => Mode("")
  }

  lemma EnsuringLinksNothing(s: State, key: Option<string>, name: string, caption: string, prefix: string)
    ensures var e := Ensuring(s, key, name, caption, prefix);
      e.state.linkedSources == s.linkedSources && NoLinks(e.announce)
  {
  }

  lemma NoLinksSnoc(updates: seq<Update>, u: Update)
    requires NoLinks(updates) && !u.Link?
    ensures NoLinks(updates + [u])
  {
  }

  lemma ToolStepLinksNothing(s: State, key: Option<string>, name: string, progress: Progress, result: ToolResult, caption: string, prefix: string)
    ensures LinksNothing(s, ToolStep(s, key, name, progress, result, caption, prefix))
  {
    var resolved := if key.Some? then key else NewestOpen(s.tools, name);
    EnsuringLinksNothing(s, resolved, name, caption, prefix);
    var e := Ensuring(s, resolved, name, caption, prefix);
    if !progress.Streaming? {
      var tool := AsMap(e.state.tools)[e.id];
      var (_, update) := Advanced(tool, if caption != "" then Title(prefix, caption, name) else tool.title, progress, result);
      NoLinksSnoc(e.announce, update);
    }
  }

  lemma MovingLinksNothing(s: State, id: string, status: Status, content: Option<seq<string>>)
    ensures LinksNothing(s, Moved(s, id, status, content))
  {
  }

  lemma ToolUseLinksNothing(s: State, b: CallBody)
    requires IsToolUse(b)
    ensures LinksNothing(s, CallTranslated(s, b))
  {
    match b
    case ToolExecution(key, name, progress, result, caption) => ToolStepLinksNothing(s, key, name, progress, result, caption, "");
    case ProviderCall(key, name, claim, result) =>
      ToolStepLinksNothing(s, key, if name != "" then name else "tool", ClaimedProgress(claim, result), result, "", "");
    case SubAgentToolExecution(subAgentId, key, name, progress, result, description) =>
      ToolStepLinksNothing(s, Within(subAgentId, key), name, progress, result, "", description);
    case CodeExecutionResult(succeeded, output) =>
      MovingLinksNothing(s, "code-execution-" + Decimal(s.codeRuns), if succeeded then Completed else Broken, Some([output]));
    case _ =>
  }

  lemma RequestLinksNothing(s: State, b: CallBody)
    requires !IsToolUse(b)
    ensures LinksNothing(s, CallTranslated(s, b))
  {
  }

  lemma OthersLinkNothing(costBefore: real, s: State, b: Body)
    requires !b.Sources?
    ensures LinksNothing(s, TranslateBody(costBefore, s, b))
  {
    if b.About? {
      if IsToolUse(b.call) { ToolUseLinksNothing(s, b.call); } else { RequestLinksNothing(s, b.call); }
    } else if b.TurnDone? {
      ClosingsAreNoLinks(s.tools, Completed, None);
    } else if b.TurnError? {
      ClosingsAreNoLinks(s.tools, Broken, None);
    }
  }

  lemma StepLinks(costBefore: real, s: State, cited: seq<string>, b: Body)
    requires Remembers(s, cited)
    ensures var r := TranslateBody(costBefore, s, b);
      var all := cited + Cited([b]);
      Remembers(r.state, all) && Firsts(cited) + Uris(Sent(r.translated)) == Firsts(all)
  {
    var r := TranslateBody(costBefore, s, b);
    FlatMapOne((b: Body) => if b.Sources? then Addresses(b.sources) else [], b);
    if b.Sources? {
      LinkingAddsFirsts(s, cited, b.sources);
      LinkingIsFaithful(s, b.sources);
      assert Sent(r.translated) == r.translated.updates;
    } else {
      OthersLinkNothing(costBefore, s, b);
      NoLinkNoUri(Sent(r.translated));
      assert cited + [] == cited;
    }
  }

  lemma CitedSnoc(bodies: seq<Body>, b: Body)
    ensures Cited(bodies + [b]) == Cited(bodies) + Cited([b])
  {
    FlatMapAppends((b: Body) => if b.Sources? then Addresses(b.sources) else [], bodies, [b]);
  }

  /** Over every run the links sent are the addresses cited, each at its first mention and no more. */
  lemma {:induction false} EverySourceIsLinkedOnce(costBefore: real, bodies: seq<Body>)
    ensures Uris(Log(costBefore, bodies)) == Firsts(Cited(bodies))
    ensures Remembers(Run(costBefore, bodies), Cited(bodies))
  {
    if bodies != [] {
      var before, last := Init(bodies), Last(bodies);
      var s := Run(costBefore, before);
      EverySourceIsLinkedOnce(costBefore, before);
      StepLinks(costBefore, s, Cited(before), last);
      CitedSnoc(before, last);
      InitAndLast(bodies);
      UrisAppend(Log(costBefore, before), Sent(TranslateBody(costBefore, s, last).translated));
    }
  }

  // ── What a link is called ─────────────────────────────────────────

  ghost predicate IsFirstOf(sources: seq<Source>, i: nat, link: Update) {
    && i < |sources| && link.Link? && link.uri == sources[i].url && |link.uri| > 0
    && link.name == (if |sources[i].title| > 0 then sources[i].title else sources[i].url)
    && forall j :: 0 <= j < i ==> sources[j].url != link.uri
  }

  ghost predicate NamesFirst(link: Update, sources: seq<Source>) {
    exists i: nat :: IsFirstOf(sources, i, link)
  }

  lemma {:induction false} BatchIsRemembered(s: State, sources: seq<Source>)
    ensures forall j :: 0 <= j < |sources| && sources[j].url != "" ==> sources[j].url in Linked(s, sources).state.linkedSources
  {
    if sources != [] {
      BatchIsRemembered(s, Init(sources));
      assert forall j :: 0 <= j < |sources| - 1 ==> Init(sources)[j] == sources[j];
      assert Last(sources) == sources[|sources| - 1];
    }
  }

  lemma NamingMore(link: Update, sources: seq<Source>, last: Source)
    requires NamesFirst(link, sources)
    ensures NamesFirst(link, sources + [last])
  {
    var i: nat :| IsFirstOf(sources, i, link);
    assert IsFirstOf(sources + [last], i, link);
  }

  lemma NamingLast(sources: seq<Source>, last: Source)
    requires last.url != "" && forall j :: 0 <= j < |sources| ==> sources[j].url != last.url
    ensures NamesFirst(SourceLink(last), sources + [last])
  {
    assert IsFirstOf(sources + [last], |sources|, SourceLink(last));
  }

  /** A link is called by the title of the first source that has its address, or by the address when that has none. */
  lemma {:induction false} LinksAreNamed(s: State, sources: seq<Source>, k: nat)
    requires k < |Linked(s, sources).translated.updates|
    ensures NamesFirst(Linked(s, sources).translated.updates[k], sources)
  {
    var front, last := Init(sources), Last(sources);
    InitAndLast(sources);
    if k < |Linked(s, front).translated.updates| {
      LinksAreNamed(s, front, k);
      NamingMore(Linked(s, front).translated.updates[k], front, last);
    } else {
      BatchIsRemembered(s, front);
      NamingLast(front, last);
    }
  }
}
