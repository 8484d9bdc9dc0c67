/**
 * Facts about a thrown error, gathered from every layer of it: the wrapper,
 * `originalError`, `cause` and the parsed body. Layers may refer to each
 * other in cycles, so the search is breadth first over a graph.
 */
module ErrorFacts {
  import opened Prelude

  /** The identity of an error object. */
  type Ref = nat

  /** The fields of one layer; None is an absent field or one of another type. */
  datatype Layer = Layer(
    provider: Option<string>,
    errorType: Option<string>,
    status: Option<int>,
    statusCode: Option<int>,
    kind: Option<string>,
    code: Option<string>,
    name: Option<string>,
    message: Option<string>,
    originalError: Option<Ref>,
    cause: Option<Ref>,
    error: Option<Ref>)

  /** Every object reachable from an error; nothing bounds it or keeps it free of cycles. */
  type Graph = Ref -> Layer

  datatype Facts = Facts(
    statuses: seq<int>,
    types: seq<string>,
    codes: seq<string>,
    names: seq<string>,
    messages: seq<string>,
    provider: Option<string>)

  const MAXIMUM_LAYERS := 6
  const PRISM_SERVER_PROVIDER := "server"
  const NO_FACTS := Facts([], [], [], [], [], None)

  function Found<T>(field: Option<T>): seq<T> {
    if field.Some? then [field.value] else []
  }

  function ValidStatus(field: Option<int>): seq<int> {
    if field.Some? && 100 <= field.value < 600 then [field.value] else []
  }

  function StatusesOf(layer: Layer): seq<int> {
    ValidStatus(layer.status) + ValidStatus(layer.statusCode)
  }

  function AddLayer(facts: Facts, layer: Layer): Facts {
    Facts(
      facts.statuses + StatusesOf(layer),
      facts.types + Found(layer.errorType) + Found(layer.kind),
      facts.codes + Found(layer.code),
      facts.names + Found(layer.name),
      facts.messages + Found(layer.message),
      if facts.provider.None? && layer.provider.Some? && layer.provider.value != PRISM_SERVER_PROVIDER
      then layer.provider else facts.provider)
  }

  function FactsOf(graph: Graph, visited: seq<Ref>): Facts {
    if visited == [] then NO_FACTS else AddLayer(FactsOf(graph, Init(visited)), graph(Last(visited)))
  }

  /** What a layer puts at the end of the queue, absent fields included. */
  function Links(layer: Layer): seq<Option<Ref>> {
    [layer.originalError, layer.cause, layer.error]
  }

  function Search(graph: Graph, queue: seq<Option<Ref>>, visited: seq<Ref>): seq<Ref>
    decreases MAXIMUM_LAYERS - |visited|, |queue|
  {
    if queue == [] || |visited| >= MAXIMUM_LAYERS then visited
    else if queue[0].None? || queue[0].value in visited then Search(graph, queue[1..], visited)
    else Search(graph, queue[1..] + Links(graph(queue[0].value)), visited + [queue[0].value])
  }

  /** The layers visited for a thrown value, in order: none when it is not an object. */
  function Visited(graph: Graph, error: Option<Ref>): seq<Ref> {
    Search(graph, [error], [])
  }

  method CollectFacts(graph: Graph, error: Option<Ref>) returns (facts: Facts)
    ensures facts == FactsOf(graph, Visited(graph, error))
  {
    facts := NO_FACTS;
    var queue := [error];
    var seen: set<Ref> := {};
    ghost var visited: seq<Ref> := [];
    while queue != [] && |seen| < MAXIMUM_LAYERS
      invariant |seen| == |visited| && (forall ref :: ref in seen <==> ref in visited)
      invariant facts == FactsOf(graph, visited)
      invariant Search(graph, queue, visited) == Visited(graph, error)
      decreases MAXIMUM_LAYERS - |seen|, |queue|
    {
      var layer := queue[0];
      queue := queue[1..];
      if layer.None? || layer.value in seen {
        continue;
      }
      seen := seen + {layer.value};
      facts := AddLayer(facts, graph(layer.value));
      queue := queue + Links(graph(layer.value));
      assert Init(visited + [layer.value]) == visited;
      visited := visited + [layer.value];
    }
  }

  /** The first status that is not the wrapper's placeholder. */
  function FirstSpecific(statuses: seq<int>): Option<int> {
    if statuses == [] then None
    else if statuses[0] != 500 then Some(statuses[0])
    else FirstSpecific(statuses[1..])
  }

  function MostSpecificStatus(statuses: seq<int>): Option<int> {
    if FirstSpecific(statuses).Some? then FirstSpecific(statuses)
    else if statuses != [] then Some(statuses[0])
    else None
  }

  // ── Why the first layers are the nearest ──────────────────────────

  /** `ref` is reached from the thrown value by following exactly `n` links. */
  ghost predicate Walk(graph: Graph, error: Option<Ref>, ref: Ref, n: nat)
    decreases n
  {
    if n == 0 then error == Some(ref)
    else exists before: Ref :: Walk(graph, error, before, n - 1) && Some(ref) in Links(graph(before))
  }

  ghost predicate IsDistance(graph: Graph, error: Option<Ref>, ref: Ref, d: nat) {
    Walk(graph, error, ref, d) && forall n: nat :: Walk(graph, error, ref, n) ==> d <= n
  }

  ghost predicate Ascending(s: seq<nat>) {
    forall i, j :: 0 <= i < j < |s| ==> s[i] <= s[j]
  }

  /** The search in the middle: what is visited and what waits, each with its distance. */
  datatype Frontier = Frontier(queue: seq<Option<Ref>>, ahead: seq<nat>, visited: seq<Ref>, behind: seq<nat>)

  ghost predicate Covered(f: Frontier, ref: Ref, d: nat)
    requires |f.queue| == |f.ahead| && |f.visited| == |f.behind|
  {
    || (exists i :: 0 <= i < |f.visited| && f.visited[i] == ref && f.behind[i] <= d)
    || (exists j :: 0 <= j < |f.queue| && f.queue[j] == Some(ref) && f.ahead[j] <= d)
  }

  ghost predicate Ordered(f: Frontier) {
    && |f.queue| == |f.ahead| && |f.visited| == |f.behind|
    && Ascending(f.ahead) && Ascending(f.behind)
    && (forall j :: 0 <= j < |f.ahead| ==> f.ahead[j] <= f.ahead[0] + 1)
    && (forall i, j :: 0 <= i < |f.behind| && 0 <= j < |f.ahead| ==> f.behind[i] <= f.ahead[j])
    && Distinct(f.visited)
  }

  ghost predicate Reached(graph: Graph, error: Option<Ref>, f: Frontier)
    requires |f.queue| == |f.ahead| && |f.visited| == |f.behind|
  {
    && (forall i :: 0 <= i < |f.visited| ==> IsDistance(graph, error, f.visited[i], f.behind[i]))
    && (forall j :: 0 <= j < |f.queue| && f.queue[j].Some? ==> Walk(graph, error, f.queue[j].value, f.ahead[j]))
  }

  ghost predicate Closed(graph: Graph, error: Option<Ref>, f: Frontier)
    requires |f.queue| == |f.ahead| && |f.visited| == |f.behind|
  {
    && (error.Some? ==> Covered(f, error.value, 0))
    && (forall i, ref :: 0 <= i < |f.visited| && Some(ref) in Links(graph(f.visited[i])) ==> Covered(f, ref, f.behind[i] + 1))
  }

  ghost predicate Inv(graph: Graph, error: Option<Ref>, f: Frontier) {
    Ordered(f) && Reached(graph, error, f) && Closed(graph, error, f)
  }

  /** Whatever is `n` links away is visited by then, or the front of the queue is no further than that. */
  lemma {:induction false} WalksAreSeen(graph: Graph, error: Option<Ref>, f: Frontier, ref: Ref, n: nat)
    requires Inv(graph, error, f) && Walk(graph, error, ref, n)
    ensures (exists i :: 0 <= i < |f.visited| && f.visited[i] == ref && f.behind[i] <= n) || (f.queue != [] && f.ahead[0] <= n)
    decreases n
  {
    if n == 0 {
      assert Covered(f, ref, 0);
    } else {
      var before: Ref :| Walk(graph, error, before, n - 1) && Some(ref) in Links(graph(before));
      WalksAreSeen(graph, error, f, before, n - 1);
      if i :| 0 <= i < |f.visited| && f.visited[i] == before && f.behind[i] <= n - 1 {
        assert Covered(f, ref, f.behind[i] + 1);
      }
    }
  }

  function Skipped(f: Frontier): Frontier
    requires f.queue != [] && |f.queue| == |f.ahead|
  {
    Frontier(f.queue[1..], f.ahead[1..], f.visited, f.behind)
  }

  function Advanced(graph: Graph, f: Frontier): Frontier
    requires f.queue != [] && f.queue[0].Some? && |f.queue| == |f.ahead|
  {
    var next := f.ahead[0] + 1;
    Frontier(f.queue[1..] + Links(graph(f.queue[0].value)), f.ahead[1..] + [next, next, next],
      f.visited + [f.queue[0].value], f.behind + [f.ahead[0]])
  }

  lemma SkippingKeepsInv(graph: Graph, error: Option<Ref>, f: Frontier)
    requires Inv(graph, error, f) && f.queue != [] && (f.queue[0].None? || f.queue[0].value in f.visited)
    ensures Inv(graph, error, Skipped(f))
  {
    forall ref: Ref, d: nat | Covered(f, ref, d)
      ensures Covered(Skipped(f), ref, d)
    {
      if j :| 0 <= j < |f.queue| && f.queue[j] == Some(ref) && f.ahead[j] <= d {
        if j > 0 {
          assert Skipped(f).queue[j - 1] == Some(ref) && Skipped(f).ahead[j - 1] <= d;
        }
      }
    }
  }

  lemma AdvancingCovers(graph: Graph, error: Option<Ref>, f: Frontier, ref: Ref, d: nat)
    requires Ordered(f) && f.queue != [] && f.queue[0].Some? && Covered(f, ref, d)
    ensures Covered(Advanced(graph, f), ref, d)
  {
    var g := Advanced(graph, f);
    if i :| 0 <= i < |f.visited| && f.visited[i] == ref && f.behind[i] <= d {
      assert g.visited[i] == ref && g.behind[i] <= d;
    } else {
      var j :| 0 <= j < |f.queue| && f.queue[j] == Some(ref) && f.ahead[j] <= d;
      if j == 0 {
        assert g.visited[|f.visited|] == ref && g.behind[|f.visited|] <= d;
      } else {
        assert g.queue[j - 1] == Some(ref) && g.ahead[j - 1] <= d;
      }
    }
  }

  lemma FrontIsAtItsDistance(graph: Graph, error: Option<Ref>, f: Frontier)
    requires Inv(graph, error, f) && f.queue != [] && f.queue[0].Some? && f.queue[0].value !in f.visited
    ensures IsDistance(graph, error, f.queue[0].value, f.ahead[0])
  {
    forall n: nat | Walk(graph, error, f.queue[0].value, n)
      ensures f.ahead[0] <= n
    {
      WalksAreSeen(graph, error, f, f.queue[0].value, n);
    }
  }

  lemma LinksAreWalked(graph: Graph, error: Option<Ref>, f: Frontier)
    requires Ordered(f) && f.queue != [] && f.queue[0].Some? && Walk(graph, error, f.queue[0].value, f.ahead[0])
    ensures var g := Advanced(graph, f); forall j :: |f.queue| - 1 <= j < |g.queue| && g.queue[j].Some? ==>
      Walk(graph, error, g.queue[j].value, g.ahead[j])
  {
    var g := Advanced(graph, f);
    forall j | |f.queue| - 1 <= j < |g.queue| && g.queue[j].Some?
      ensures Walk(graph, error, g.queue[j].value, g.ahead[j])
    {
      assert Some(g.queue[j].value) in Links(graph(f.queue[0].value));
    }
  }

  lemma AdvancingOrders(graph: Graph, f: Frontier)
    requires Ordered(f) && f.queue != [] && f.queue[0].Some? && f.queue[0].value !in f.visited
    ensures Ordered(Advanced(graph, f))
  {
    var g := Advanced(graph, f);
    assert forall j :: 0 <= j < |g.ahead| ==> f.ahead[0] <= g.ahead[j] <= f.ahead[0] + 1;
  }

  lemma AdvancingCloses(graph: Graph, error: Option<Ref>, f: Frontier)
    requires Ordered(f) && Closed(graph, error, f) && f.queue != [] && f.queue[0].Some?
    ensures Closed(graph, error, Advanced(graph, f))
  {
    var g := Advanced(graph, f);
    if error.Some? {
      AdvancingCovers(graph, error, f, error.value, 0);
    }
    forall i, ref | 0 <= i < |g.visited| && Some(ref) in Links(graph(g.visited[i]))
      ensures Covered(g, ref, g.behind[i] + 1)
    {
      if i < |f.visited| {
        AdvancingCovers(graph, error, f, ref, f.behind[i] + 1);
      } else {
        var k :| 0 <= k < 3 && Links(graph(f.queue[0].value))[k] == Some(ref);
        assert g.queue[|f.queue| - 1 + k] == Some(ref) && g.ahead[|f.queue| - 1 + k] == f.ahead[0] + 1;
      }
    }
  }

  lemma AdvancingKeepsInv(graph: Graph, error: Option<Ref>, f: Frontier)
    requires Inv(graph, error, f) && f.queue != [] && f.queue[0].Some? && f.queue[0].value !in f.visited
    ensures Inv(graph, error, Advanced(graph, f))
  {
    FrontIsAtItsDistance(graph, error, f);
    LinksAreWalked(graph, error, f);
    AdvancingOrders(graph, f);
    AdvancingCloses(graph, error, f);
  }

  /** What a finished search has visited, and how far away each of it is. */
  ghost predicate NearestFirst(graph: Graph, error: Option<Ref>, visited: seq<Ref>, distances: seq<nat>) {
    && |visited| <= 6 && Distinct(visited)
    && |distances| == |visited| && Ascending(distances)
    && (forall i :: 0 <= i < |visited| ==> IsDistance(graph, error, visited[i], distances[i]))
    && (forall ref: Ref, n: nat :: Walk(graph, error, ref, n) && ref !in visited ==>
          |visited| == 6 && Last(distances) <= n)
  }

  lemma {:induction false} SearchKeepsInv(graph: Graph, error: Option<Ref>, f: Frontier) returns (distances: seq<nat>)
    requires Inv(graph, error, f) && |f.visited| <= MAXIMUM_LAYERS
    ensures NearestFirst(graph, error, Search(graph, f.queue, f.visited), distances)
    decreases MAXIMUM_LAYERS - |f.visited|, |f.queue|
  {
    if f.queue == [] || |f.visited| >= MAXIMUM_LAYERS {
      distances := f.behind;
      forall ref: Ref, n: nat | Walk(graph, error, ref, n) && ref !in f.visited
        ensures |f.visited| == MAXIMUM_LAYERS && Last(distances) <= n
      {
        WalksAreSeen(graph, error, f, ref, n);
      }
    } else if f.queue[0].None? || f.queue[0].value in f.visited {
      SkippingKeepsInv(graph, error, f);
      distances := SearchKeepsInv(graph, error, Skipped(f));
    } else {
      AdvancingKeepsInv(graph, error, f);
      distances := SearchKeepsInv(graph, error, Advanced(graph, f));
    }
  }

  /**
   * On every graph, cyclic ones included: at most six layers, each once, in
   * order of distance from the thrown error, and nothing left out is nearer.
   */
  lemma VisitedAreNearest(graph: Graph, error: Option<Ref>) returns (distances: seq<nat>)
    ensures NearestFirst(graph, error, Visited(graph, error), distances)
  {
    var f := Frontier([error], [0], [], []);
    if error.Some? {
      assert f.queue[0] == error && f.ahead[0] <= 0;
    }
    distances := SearchKeepsInv(graph, error, f);
  }

  // ── Whose status is reported ──────────────────────────────────────

  predicate HasSpecificStatus(layer: Layer) {
    FirstSpecific(StatusesOf(layer)).Some?
  }

  lemma {:induction false} FirstSpecificAppends(a: seq<int>, b: seq<int>)
    ensures FirstSpecific(a + b) == if FirstSpecific(a).Some? then FirstSpecific(a) else FirstSpecific(b)
  {
    if a == [] {
      assert a + b == b;
    } else {
      FirstSpecificAppends(a[1..], b);
      assert (a + b)[1..] == a[1..] + b;
    }
  }

  /** `found` is the first specific status of the visited layers, and `at` the layer that has it. */
  ghost predicate IsFirstSpecific(graph: Graph, visited: seq<Ref>, found: Option<int>, at: nat) {
    if found.Some? then
      && at < |visited| && FirstSpecific(StatusesOf(graph(visited[at]))) == found
      && forall i :: 0 <= i < at ==> !HasSpecificStatus(graph(visited[i]))
    else
      forall i :: 0 <= i < |visited| ==> !HasSpecificStatus(graph(visited[i]))
  }

  lemma IsFirstSpecificExtends(graph: Graph, visited: seq<Ref>, last: Ref, found: Option<int>, at: nat) returns (next: nat)
    requires IsFirstSpecific(graph, visited, found, at)
    ensures IsFirstSpecific(graph, visited + [last], if found.Some? then found else FirstSpecific(StatusesOf(graph(last))), next)
  {
    var all := visited + [last];
    assert all[..|visited|] == visited && all[|visited|] == last;
    next := if found.Some? then at else |visited|;
    assert forall i :: 0 <= i < |visited| ==> all[i] == visited[i];
  }

  lemma {:induction false} FirstSpecificIsFirst(graph: Graph, visited: seq<Ref>) returns (at: nat)
    ensures IsFirstSpecific(graph, visited, FirstSpecific(FactsOf(graph, visited).statuses), at)
  {
    if visited == [] {
      at := 0;
    } else {
      var before := Init(visited);
      at := FirstSpecificIsFirst(graph, before);
      FirstSpecificAppends(FactsOf(graph, before).statuses, StatusesOf(graph(Last(visited))));
      at := IsFirstSpecificExtends(graph, before, Last(visited), FirstSpecific(FactsOf(graph, before).statuses), at);
      assert before + [Last(visited)] == visited;
    }
  }

  ghost predicate NoStatuses(graph: Graph, visited: seq<Ref>) {
    forall i :: 0 <= i < |visited| ==> StatusesOf(graph(visited[i])) == []
  }

  lemma StatusesOfFacts(graph: Graph, visited: seq<Ref>)
    requires visited != []
    ensures FactsOf(graph, visited).statuses == FactsOf(graph, Init(visited)).statuses + StatusesOf(graph(Last(visited)))
  {
  }

  lemma NoStatusesIn(graph: Graph, visited: seq<Ref>)
    requires visited != []
    ensures NoStatuses(graph, visited) <==> NoStatuses(graph, Init(visited)) && StatusesOf(graph(Last(visited))) == []
  {
    assert forall i :: 0 <= i < |visited| - 1 ==> Init(visited)[i] == visited[i];
    assert Last(visited) == visited[|visited| - 1];
  }

  lemma {:induction false} NoStatusAtAll(graph: Graph, visited: seq<Ref>)
    ensures FactsOf(graph, visited).statuses == [] <==> NoStatuses(graph, visited)
  {
    if visited != [] {
      NoStatusAtAll(graph, Init(visited));
      StatusesOfFacts(graph, visited);
      NoStatusesIn(graph, visited);
    }
  }

  ghost predicate AllPlaceholders(statuses: seq<int>) {
    forall i :: 0 <= i < |statuses| ==> statuses[i] == 500
  }

  lemma {:induction false} SpecificIsListed(statuses: seq<int>)
    ensures match FirstSpecific(statuses)
      case Some(status) => status in statuses && status != 500
      case None => AllPlaceholders(statuses)
  {
    if statuses != [] {
      SpecificIsListed(statuses[1..]);
    }
  }

  /** `status` is that of layer `at`, and no layer nearer than it has one that is not 500. */
  ghost predicate ReportsNearest(graph: Graph, visited: seq<Ref>, distances: seq<nat>, status: Option<int>, at: nat)
    requires |distances| == |visited|
  {
    && at < |visited| && status.Some? && status.value != 500 && status.value in StatusesOf(graph(visited[at]))
    && forall i :: 0 <= i < |visited| && HasSpecificStatus(graph(visited[i])) ==> distances[at] <= distances[i]
  }

  /** No visited layer has a status other than 500; the status is missing only if there is none at all. */
  ghost predicate ReportsNothingBetter(graph: Graph, visited: seq<Ref>, status: Option<int>) {
    && (forall i :: 0 <= i < |visited| ==> !HasSpecificStatus(graph(visited[i])))
    && (status == Some(500) || status == None)
    && (status == None <==> NoStatuses(graph, visited))
  }

  /** The reported status is that of a nearest visited layer with one that is not the placeholder 500. */
  lemma StatusIsNearest(graph: Graph, error: Option<Ref>) returns (distances: seq<nat>, at: nat)
    ensures NearestFirst(graph, error, Visited(graph, error), distances)
    ensures var status := MostSpecificStatus(FactsOf(graph, Visited(graph, error)).statuses);
      || ReportsNearest(graph, Visited(graph, error), distances, status, at)
      || ReportsNothingBetter(graph, Visited(graph, error), status)
  {
    var visited := Visited(graph, error);
    distances := VisitedAreNearest(graph, error);
    at := FirstSpecificIsFirst(graph, visited);
    var statuses := FactsOf(graph, visited).statuses;
    SpecificIsListed(statuses);
    NoStatusAtAll(graph, visited);
    if FirstSpecific(statuses).Some? {
      FirstIsNearest(graph, visited, distances, FirstSpecific(statuses), at);
    } else {
      assert ReportsNothingBetter(graph, visited, MostSpecificStatus(statuses));
    }
  }

  lemma FirstIsNearest(graph: Graph, visited: seq<Ref>, distances: seq<nat>, found: Option<int>, at: nat)
    requires |distances| == |visited| && Ascending(distances)
    requires found.Some? && IsFirstSpecific(graph, visited, found, at)
    ensures ReportsNearest(graph, visited, distances, found, at)
  {
    SpecificIsListed(StatusesOf(graph(visited[at])));
  }

  // ── What is collected ─────────────────────────────────────────────

  ghost predicate IsNextTo(layer: Layer, ref: Ref) {
    layer.originalError == Some(ref) || layer.cause == Some(ref) || layer.error == Some(ref)
  }

  /** One link away are the wrapped error, the cause and the parsed body, and nothing else. */
  lemma LinksAreThree(graph: Graph, error: Option<Ref>, ref: Ref, n: nat)
    ensures Walk(graph, error, ref, n + 1) <==> (exists before: Ref :: Walk(graph, error, before, n) && IsNextTo(graph(before), ref))
  {
    forall before: Ref ensures Some(ref) in Links(graph(before)) <==> IsNextTo(graph(before), ref) {
      assert Links(graph(before))[0] == graph(before).originalError;
      assert Links(graph(before))[1] == graph(before).cause;
      assert Links(graph(before))[2] == graph(before).error;
    }
  }

  /** A layer reports a status: a number from 100 to 599 under either name. */
  predicate Reports(layer: Layer, status: int) {
    100 <= status <= 599 && (layer.status == Some(status) || layer.statusCode == Some(status))
  }

  predicate IsOfType(layer: Layer, x: string) {
    layer.errorType == Some(x) || layer.kind == Some(x)
  }

  predicate HasCode(layer: Layer, x: string) {
    layer.code == Some(x)
  }

  predicate HasName(layer: Layer, x: string) {
    layer.name == Some(x)
  }

  /** `xs` are what some visited layer has. */
  ghost predicate AreAll<T(!new)>(graph: Graph, visited: seq<Ref>, xs: seq<T>, has: (Layer, T) -> bool) {
    forall x: T :: x in xs <==> exists i :: 0 <= i < |visited| && has(graph(visited[i]), x)
  }

  lemma OneMoreLayer<T(!new)>(graph: Graph, before: seq<Ref>, last: Ref, xs: seq<T>, more: seq<T>, has: (Layer, T) -> bool)
    requires AreAll(graph, before, xs, has) && forall x: T :: x in more <==> has(graph(last), x)
    ensures AreAll(graph, before + [last], xs + more, has)
  {
    var all := before + [last];
    assert all[|before|] == last && forall i :: 0 <= i < |before| ==> all[i] == before[i];
  }

  /** What the facts hold of some layers, kind by kind. */
  ghost predicate HoldAll(graph: Graph, visited: seq<Ref>, facts: Facts) {
    && AreAll(graph, visited, facts.statuses, Reports)
    && AreAll(graph, visited, facts.types, IsOfType)
    && AreAll(graph, visited, facts.codes, HasCode)
    && AreAll(graph, visited, facts.names, HasName)
  }

  lemma OneMoreHeld(graph: Graph, before: seq<Ref>, last: Ref, facts: Facts)
    requires HoldAll(graph, before, facts)
    ensures HoldAll(graph, before + [last], AddLayer(facts, graph(last)))
  {
    var layer := graph(last);
    OneMoreLayer(graph, before, last, facts.statuses, StatusesOf(layer), Reports);
    OneMoreLayer(graph, before, last, facts.types, Found(layer.errorType) + Found(layer.kind), IsOfType);
    Regroup(facts.types, Found(layer.errorType), Found(layer.kind));
    OneMoreLayer(graph, before, last, facts.codes, Found(layer.code), HasCode);
    OneMoreLayer(graph, before, last, facts.names, Found(layer.name), HasName);
  }

  /** The messages of the layers that have one, in order. */
  ghost predicate AreMessages(graph: Graph, visited: seq<Ref>, messages: seq<string>) {
    if visited == [] then messages == []
    else if graph(Last(visited)).message.Some? then
      messages != [] && Last(messages) == graph(Last(visited)).message.value && AreMessages(graph, Init(visited), Init(messages))
    else AreMessages(graph, Init(visited), messages)
  }

  /** A provider other than this service itself. */
  ghost predicate NamesProvider(layer: Layer) {
    layer.provider.Some? && layer.provider.value != "server"
  }

  ghost predicate IsFirstNamed(graph: Graph, visited: seq<Ref>, provider: string, at: nat) {
    && at < |visited| && provider != "server" && graph(visited[at]).provider == Some(provider)
    && forall i :: 0 <= i < at ==> !NamesProvider(graph(visited[i]))
  }

  /** The first provider named by a layer, or none when none is. */
  ghost predicate IsProvider(graph: Graph, visited: seq<Ref>, provider: Option<string>) {
    match provider
    case None => forall i :: 0 <= i < |visited| ==> !NamesProvider(graph(visited[i]))
    case Some(name) => exists at: nat :: IsFirstNamed(graph, visited, name, at)
  }

  lemma OneMoreProvider(graph: Graph, before: seq<Ref>, last: Ref, facts: Facts)
    requires IsProvider(graph, before, facts.provider)
    ensures IsProvider(graph, before + [last], AddLayer(facts, graph(last)).provider)
  {
    var all := before + [last];
    assert all[|before|] == last && forall i :: 0 <= i < |before| ==> all[i] == before[i];
    if facts.provider.Some? {
      var at: nat :| IsFirstNamed(graph, before, facts.provider.value, at);
      assert IsFirstNamed(graph, all, facts.provider.value, at);
    } else if NamesProvider(graph(last)) {
      assert IsFirstNamed(graph, all, graph(last).provider.value, |before|);
    }
  }

  lemma OneMoreMessage(graph: Graph, before: seq<Ref>, last: Ref, facts: Facts)
    requires AreMessages(graph, before, facts.messages)
    ensures AreMessages(graph, before + [last], AddLayer(facts, graph(last)).messages)
  {
    assert Init(before + [last]) == before;
    if graph(last).message.Some? {
      assert Init(facts.messages + [graph(last).message.value]) == facts.messages;
    } else {
      NothingMore(facts.messages);
    }
  }

  /** Every visited layer's statuses, types, codes, names and message are collected, and the first provider. */
  lemma {:induction false} FactsAreCollected(graph: Graph, visited: seq<Ref>)
    ensures HoldAll(graph, visited, FactsOf(graph, visited))
    ensures AreMessages(graph, visited, FactsOf(graph, visited).messages)
    ensures IsProvider(graph, visited, FactsOf(graph, visited).provider)
  {
    if visited != [] {
      var facts := FactsOf(graph, Init(visited));
      FactsAreCollected(graph, Init(visited));
      InitAndLast(visited);
      OneMoreHeld(graph, Init(visited), Last(visited), facts);
      OneMoreMessage(graph, Init(visited), Last(visited), facts);
      OneMoreProvider(graph, Init(visited), Last(visited), facts);
    }
  }
}
