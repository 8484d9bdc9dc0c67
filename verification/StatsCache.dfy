/**
 * The statistics cache: one entry per key for thirty seconds, concurrent
 * requests of one key joined into one fetch, everything forgotten when the
 * database changes. The fetches run concurrently with calls and clears, so
 * the cache is a step machine: every step is one uninterrupted run of the
 * JavaScript event loop.
 */
module StatsCache {
  import opened Prelude

  type Key = string
  type Value = string

  const CACHE_TIME_TO_LIVE_MILLISECONDS := 30_000

  datatype Entry = Entry(result: Value, cachedAt: int)

  /** `step` is the step that delivered the value. */
  datatype Outcome = Pending | Resolved(value: Value, step: nat) | Rejected

  /** One run of a fetcher: the closure its callbacks share. `start` is the step that began it. */
  datatype Fetch = Fetch(key: Key, startedGeneration: nat, start: nat, outcome: Outcome)

  /** What a call of getOrFetch returned: a cached value, or the promise of a fetch. */
  datatype Reply = Hit(value: Value, age: int) | Joined(fetch: nat)

  datatype Call = Call(key: Key, at: nat, reply: Reply)

  datatype Event =
    | GetOrFetch(key: Key)
    | Resolve(fetch: nat, value: Value)
    | Reject(fetch: nat)
    | Clear
    | Tick(now: int)

  /** The manager's fields, the promises it has made, the clock, and what happened so far. */
  datatype State = State(
    cacheStore: map<Key, Entry>,
    activePromises: map<Key, nat>,
    generation: nat,
    now: int,
    fetches: seq<Fetch>,
    calls: seq<Call>,
    trace: seq<Event>)

  const EMPTY := State(map[], map[], 0, 0, [], [], [])

  predicate IsPending(s: State, f: nat) {
    f < |s.fetches| && s.fetches[f].outcome.Pending?
  }

  predicate IsFresh(s: State, key: Key) {
    key in s.cacheStore && s.now - s.cacheStore[key].cachedAt < CACHE_TIME_TO_LIVE_MILLISECONDS
  }

  function Settled(active: map<Key, nat>, key: Key, fetch: nat): map<Key, nat> {
    if key in active && active[key] == fetch then active - {key} else active
  }

  function Called(s: State, key: Key): State {
    if IsFresh(s, key) then
      s.(calls := s.calls + [Call(key, |s.trace|, Hit(s.cacheStore[key].result, s.now - s.cacheStore[key].cachedAt))])
    else if key in s.activePromises then
      s.(calls := s.calls + [Call(key, |s.trace|, Joined(s.activePromises[key]))])
    else
      s.(fetches := s.fetches + [Fetch(key, s.generation, |s.trace|, Pending)],
         activePromises := s.activePromises[key := |s.fetches|],
         calls := s.calls + [Call(key, |s.trace|, Joined(|s.fetches|))])
  }

  function Finished(s: State, f: nat, outcome: Outcome): State
    requires f < |s.fetches|
  {
    var fetch := s.fetches[f];
    s.(fetches := s.fetches[f := fetch.(outcome := outcome)],
       activePromises := Settled(s.activePromises, fetch.key, f),
       cacheStore :=
         if outcome.Resolved? && s.generation == fetch.startedGeneration
         then s.cacheStore[fetch.key := Entry(outcome.value, s.now)]
         else s.cacheStore)
  }

  /** A promise settles at most once; any other event can come at any time. */
  predicate Enabled(s: State, e: Event) {
    match e
    case Resolve(f, _) => IsPending(s, f)
    case Reject(f) => IsPending(s, f)
    case _ => true
  }

  function Step(s: State, e: Event): State
    requires Enabled(s, e)
  {
    var next :=
      match e
      case GetOrFetch(key) => Called(s, key)
      case Resolve(f, value) => Finished(s, f, Resolved(value, |s.trace|))
      case Reject(f) => Finished(s, f, Rejected)
      case Clear => s.(generation := s.generation + 1, cacheStore := map[], activePromises := map[])
      case Tick(now) => s.(now := now);
    next.(trace := s.trace + [e])
  }

  /** Some interleaving of calls, completions, clears and clock readings leads from one state to the other. */
  ghost predicate Leads(from: State, events: seq<Event>, to: State) {
    if events == [] then to == from
    else exists before: State ::
      Leads(from, Init(events), before) && Enabled(before, Last(events)) && to == Step(before, Last(events))
  }

  // ── What must hold ────────────────────────────────────────────────

  /** `Clear` happened in none of the steps from `from` up to `to`. */
  ghost predicate Undisturbed(trace: seq<Event>, from: nat, to: nat) {
    from <= to <= |trace| && forall i :: from <= i < to ==> !trace[i].Clear?
  }

  /** Fetch `f` answers a call of `key` made at step `at`: it began after the last clear before that call. */
  ghost predicate Answers(s: State, f: nat, key: Key, at: nat) {
    f < |s.fetches| && s.fetches[f].key == key && Undisturbed(s.trace, s.fetches[f].start, at)
  }

  /** What the clock read before step `n`: the last reading, zero if there was none. */
  function ClockAt(trace: seq<Event>, n: nat): int
    requires n <= |trace|
  {
    if n == 0 then 0 else if trace[n - 1].Tick? then trace[n - 1].now else ClockAt(trace, n - 1)
  }

  /** Fetch `f` delivered `value` before step `before`, when the clock read `time`. */
  ghost predicate Delivered(s: State, f: nat, value: Value, before: nat, time: int) {
    && f < |s.fetches| && s.fetches[f].outcome.Resolved? && s.fetches[f].outcome.value == value
    && var step := s.fetches[f].outcome.step;
       step < before <= |s.trace| && s.trace[step] == Resolve(f, value) && ClockAt(s.trace, step) == time
  }

  /**
   * A call gets only what a fetch begun after the last preceding clear
   * delivers; a hit was delivered less than the time to live before the call.
   */
  ghost predicate CallIsCurrent(s: State, call: Call) {
    && call.at < |s.trace| && s.trace[call.at] == GetOrFetch(call.key)
    && match call.reply
       case Joined(f) => Answers(s, f, call.key, call.at)
       case Hit(value, age) =>
         && age < 30_000
         && exists f: nat ::
              Answers(s, f, call.key, call.at) && Delivered(s, f, value, call.at, ClockAt(s.trace, call.at) - age)
  }

  /** A fetch that no clear has overtaken. */
  ghost predicate Current(s: State, f: nat) {
    f < |s.fetches| && s.fetches[f].startedGeneration == s.generation
  }

  /** The generation stamp tells whether a clear has come since the fetch began. */
  ghost predicate IsDated(s: State, fetch: Fetch) {
    && fetch.start < |s.trace|
    && fetch.startedGeneration <= s.generation
    && (fetch.startedGeneration == s.generation <==> Undisturbed(s.trace, fetch.start, |s.trace|))
  }

  /** At most one fetch per key is in flight per generation. */
  ghost predicate NotBothInFlight(s: State, f: nat, g: nat)
    requires f < |s.fetches| && g < |s.fetches|
  {
    && s.fetches[f].key == s.fetches[g].key
    && s.fetches[f].startedGeneration == s.fetches[g].startedGeneration
    ==> !IsPending(s, f) || !IsPending(s, g)
  }

  /** A fetch of `key` that no clear has overtaken delivered the entry's value, at the entry's time. */
  ghost predicate IsBacked(s: State, key: Key, entry: Entry) {
    exists f: nat :: Current(s, f) && s.fetches[f].key == key && Delivered(s, f, entry.result, |s.trace|, entry.cachedAt)
  }

  /** The in-flight map holds exactly the pending fetches of this generation. */
  ghost predicate InFlightAreCurrent(s: State) {
    && (forall k :: k in s.activePromises ==>
          Current(s, s.activePromises[k]) && IsPending(s, s.activePromises[k]) && s.fetches[s.activePromises[k]].key == k)
    && (forall f :: 0 <= f < |s.fetches| && Current(s, f) && IsPending(s, f) ==>
          s.fetches[f].key in s.activePromises && s.activePromises[s.fetches[f].key] == f)
  }

  /** A stored value was delivered in this generation, when its entry says. */
  ghost predicate EntriesAreBacked(s: State) {
    forall k :: k in s.cacheStore ==> IsBacked(s, k, s.cacheStore[k])
  }

  /** The dating, the uniqueness and the answers of everything so far. */
  ghost predicate HistoryHolds(s: State) {
    && s.now == ClockAt(s.trace, |s.trace|)
    && (forall f :: 0 <= f < |s.fetches| ==> IsDated(s, s.fetches[f]))
    && (forall f, g :: 0 <= f < g < |s.fetches| ==> NotBothInFlight(s, f, g))
    && (forall i :: 0 <= i < |s.calls| ==> CallIsCurrent(s, s.calls[i]))
  }

  ghost predicate Inv(s: State) {
    HistoryHolds(s) && InFlightAreCurrent(s) && EntriesAreBacked(s)
  }

  // ── Proofs ────────────────────────────────────────────────────────

  lemma {:induction false} ClockStays(trace: seq<Event>, e: Event, n: nat)
    requires n <= |trace|
    ensures ClockAt(trace + [e], n) == ClockAt(trace, n)
  {
    if n > 0 {
      ClockStays(trace, e, n - 1);
    }
  }

  lemma DeliveryStays(s: State, e: Event, f: nat, value: Value, at: nat, time: int)
    requires Enabled(s, e) && Delivered(s, f, value, at, time)
    ensures Delivered(Step(s, e), f, value, at, time)
  {
    ClockStays(s.trace, e, s.fetches[f].outcome.step);
  }

  lemma AnswerStays(s: State, e: Event, f: nat, key: Key, at: nat)
    requires Enabled(s, e) && Answers(s, f, key, at)
    ensures Answers(Step(s, e), f, key, at)
  {
    assert Step(s, e).trace[..|s.trace|] == s.trace;
  }

  /** Nothing a later step does can take back what a call was promised. */
  lemma CallStaysCurrent(s: State, e: Event, call: Call)
    requires Enabled(s, e) && CallIsCurrent(s, call)
    ensures CallIsCurrent(Step(s, e), call)
  {
    match call.reply
    case Joined(f) => AnswerStays(s, e, f, call.key, call.at);
    case Hit(value, age) =>
      var time := ClockAt(s.trace, call.at) - age;
      var f: nat :| Answers(s, f, call.key, call.at) && Delivered(s, f, value, call.at, time);
      AnswerStays(s, e, f, call.key, call.at);
      DeliveryStays(s, e, f, value, call.at, time);
      ClockStays(s.trace, e, call.at);
  }

  lemma FetchStaysDated(s: State, e: Event, fetch: Fetch)
    requires Enabled(s, e) && IsDated(s, fetch)
    ensures IsDated(Step(s, e), fetch)
  {
    var next := Step(s, e);
    assert Undisturbed(next.trace, fetch.start, |next.trace|) <==> Undisturbed(s.trace, fetch.start, |s.trace|) && !e.Clear? by {
      assert next.trace[|s.trace|] == e;
      assert next.trace[..|s.trace|] == s.trace;
    }
  }

  /** Dating, uniqueness and the calls already answered survive every step. */
  lemma HistoryStays(s: State, e: Event)
    requires Inv(s) && Enabled(s, e)
    ensures forall f :: 0 <= f < |s.fetches| ==> IsDated(Step(s, e), Step(s, e).fetches[f])
    ensures forall f, g :: 0 <= f < g < |s.fetches| ==> NotBothInFlight(Step(s, e), f, g)
    ensures forall i :: 0 <= i < |s.calls| ==> CallIsCurrent(Step(s, e), s.calls[i])
  {
    var next := Step(s, e);
    forall f | 0 <= f < |s.fetches|
      ensures IsDated(next, next.fetches[f])
    {
      FetchStaysDated(s, e, s.fetches[f]);
    }
    forall f, g | 0 <= f < g < |s.fetches|
      ensures NotBothInFlight(next, f, g)
    {
      assert NotBothInFlight(s, f, g);
    }
    forall i | 0 <= i < |s.calls|
      ensures CallIsCurrent(next, s.calls[i])
    {
      CallStaysCurrent(s, e, s.calls[i]);
    }
  }

  lemma ClockAdvances(s: State, e: Event)
    requires Enabled(s, e) && s.now == ClockAt(s.trace, |s.trace|)
    ensures Step(s, e).now == ClockAt(Step(s, e).trace, |Step(s, e).trace|)
  {
    ClockStays(s.trace, e, |s.trace|);
  }

  /** A stored value stays backed by a fetch of this generation until the next clear. */
  lemma BackingStays(s: State, e: Event, key: Key, entry: Entry)
    requires Enabled(s, e) && !e.Clear? && IsBacked(s, key, entry)
    ensures IsBacked(Step(s, e), key, entry)
  {
    var f: nat :| Current(s, f) && s.fetches[f].key == key && Delivered(s, f, entry.result, |s.trace|, entry.cachedAt);
    var next := Step(s, e);
    DeliveryStays(s, e, f, entry.result, |s.trace|, entry.cachedAt);
    assert Current(next, f) && next.fetches[f].key == key && Delivered(next, f, entry.result, |next.trace|, entry.cachedAt);
  }

  lemma HitIsCurrent(s: State, key: Key)
    requires Inv(s) && IsFresh(s, key)
    ensures CallIsCurrent(Step(s, GetOrFetch(key)), Last(Step(s, GetOrFetch(key)).calls))
  {
    var e, entry, at := GetOrFetch(key), s.cacheStore[key], |s.trace|;
    var next := Step(s, e);
    assert IsBacked(s, key, entry);
    var f: nat :| Current(s, f) && s.fetches[f].key == key && Delivered(s, f, entry.result, at, entry.cachedAt);
    AnswerStays(s, e, f, key, at);
    DeliveryStays(s, e, f, entry.result, at, entry.cachedAt);
    ClockStays(s.trace, e, at);
    assert Answers(next, f, key, at) && Delivered(next, f, entry.result, at, ClockAt(next.trace, at) - (s.now - entry.cachedAt));
  }

  lemma NewFetchIsAlone(s: State, key: Key)
    requires Inv(s) && !IsFresh(s, key) && key !in s.activePromises
    ensures var next := Step(s, GetOrFetch(key));
      && IsDated(next, Last(next.fetches))
      && forall f :: 0 <= f < |s.fetches| ==> NotBothInFlight(next, f, |s.fetches|)
  {
    var next := Step(s, GetOrFetch(key));
    forall f | 0 <= f < |s.fetches|
      ensures NotBothInFlight(next, f, |s.fetches|)
    {
      if IsPending(s, f) && s.fetches[f].key == key {
        assert !Current(s, f);
      }
    }
  }

  lemma CallKeepsInFlight(s: State, key: Key)
    requires InFlightAreCurrent(s)
    ensures InFlightAreCurrent(Step(s, GetOrFetch(key)))
  {
  }

  lemma CallKeepsEntries(s: State, key: Key)
    requires Inv(s)
    ensures EntriesAreBacked(Step(s, GetOrFetch(key)))
  {
    forall k | k in s.cacheStore
      ensures IsBacked(Step(s, GetOrFetch(key)), k, s.cacheStore[k])
    {
      BackingStays(s, GetOrFetch(key), k, s.cacheStore[k]);
    }
  }

  lemma JoiningIsCurrent(s: State, key: Key)
    requires Inv(s) && !IsFresh(s, key)
    ensures CallIsCurrent(Step(s, GetOrFetch(key)), Last(Step(s, GetOrFetch(key)).calls))
  {
    var next := Step(s, GetOrFetch(key));
    assert next.trace[..|s.trace|] == s.trace;
  }

  lemma CallKeepsHistory(s: State, key: Key)
    requires Inv(s)
    ensures HistoryHolds(Step(s, GetOrFetch(key)))
  {
    HistoryStays(s, GetOrFetch(key));
    ClockAdvances(s, GetOrFetch(key));
    if IsFresh(s, key) {
      HitIsCurrent(s, key);
    } else {
      JoiningIsCurrent(s, key);
      if key !in s.activePromises {
        NewFetchIsAlone(s, key);
      }
    }
  }

  lemma CalledKeepsInv(s: State, key: Key)
    requires Inv(s)
    ensures Inv(Step(s, GetOrFetch(key)))
  {
    CallKeepsHistory(s, key);
    CallKeepsInFlight(s, key);
    CallKeepsEntries(s, key);
  }

  /** What a current fetch delivers is stored under the time of its delivery. */
  lemma NewEntryIsBacked(s: State, f: nat, value: Value)
    requires Inv(s) && IsPending(s, f) && Current(s, f)
    ensures IsBacked(Step(s, Resolve(f, value)), s.fetches[f].key, Entry(value, s.now))
  {
    var e := Resolve(f, value);
    var next := Step(s, e);
    ClockStays(s.trace, e, |s.trace|);
    assert Current(next, f) && next.fetches[f].key == s.fetches[f].key && Delivered(next, f, value, |next.trace|, s.now);
  }

  lemma FinishedKeepsInv(s: State, e: Event)
    requires Inv(s) && Enabled(s, e) && (e.Resolve? || e.Reject?)
    ensures Inv(Step(s, e))
  {
    var next := Step(s, e);
    HistoryStays(s, e);
    ClockAdvances(s, e);
    forall k | k in next.cacheStore
      ensures IsBacked(next, k, next.cacheStore[k])
    {
      if e.Resolve? && Current(s, e.fetch) && k == s.fetches[e.fetch].key {
        NewEntryIsBacked(s, e.fetch, e.value);
      } else {
        BackingStays(s, e, k, s.cacheStore[k]);
      }
    }
  }

  lemma ClearOrTickKeepsInv(s: State, e: Event)
    requires Inv(s) && (e.Clear? || e.Tick?)
    ensures Inv(Step(s, e))
  {
    HistoryStays(s, e);
    ClockAdvances(s, e);
    if e.Tick? {
      forall k | k in s.cacheStore
        ensures IsBacked(Step(s, e), k, s.cacheStore[k])
      {
        BackingStays(s, e, k, s.cacheStore[k]);
      }
    }
  }

  lemma StepKeepsInv(s: State, e: Event)
    requires Inv(s) && Enabled(s, e)
    ensures Inv(Step(s, e))
  {
    match e
    case GetOrFetch(key) => CalledKeepsInv(s, key);
    case Clear => ClearOrTickKeepsInv(s, e);
    case Tick(_) => ClearOrTickKeepsInv(s, e);
    case _ => FinishedKeepsInv(s, e);
  }

  /** Over every interleaving of calls, completions, failures, clears and clock readings. */
  lemma {:induction false} EveryRunKeepsInv(events: seq<Event>, s: State)
    requires Leads(EMPTY, events, s)
    ensures Inv(s) && s.trace == events
  {
    if events != [] {
      var before: State :| Leads(EMPTY, Init(events), before) && Enabled(before, Last(events)) && s == Step(before, Last(events));
      EveryRunKeepsInv(Init(events), before);
      StepKeepsInv(before, Last(events));
    }
  }

  // ── As good as computing it now ───────────────────────────────────

  /** From step `from` on, `key` was asked for only while the clock was within the time to live of `time`, and nothing was cleared. */
  ghost predicate AskedInTime(s: State, from: nat, key: Key, time: int) {
    && from <= |s.trace| && Undisturbed(s.trace, from, |s.trace|)
    && forall i :: from <= i < |s.trace| && s.trace[i] == GetOrFetch(key) ==>
         ClockAt(s.trace, i) - time < 30_000
  }

  /** `entry` is stored, and no fetch of `key` has begun since there were `known` of all. */
  ghost predicate Serves(s: State, key: Key, entry: Entry, known: nat) {
    && key in s.cacheStore && s.cacheStore[key] == entry && key !in s.activePromises
    && known <= |s.fetches| && forall g :: known <= g < |s.fetches| ==> s.fetches[g].key != key
  }

  lemma ServingStays(s: State, e: Event, key: Key, entry: Entry, known: nat)
    requires InFlightAreCurrent(s) && Serves(s, key, entry, known) && Enabled(s, e) && !e.Clear?
    requires e == GetOrFetch(key) ==> s.now - entry.cachedAt < CACHE_TIME_TO_LIVE_MILLISECONDS
    ensures Serves(Step(s, e), key, entry, known)
  {
    if e.Resolve? || e.Reject? {
      assert Current(s, e.fetch) ==> s.fetches[e.fetch].key in s.activePromises;
    }
  }

  lemma AskedInTimeBefore(s: State, e: Event, from: nat, key: Key, time: int)
    requires Enabled(s, e) && from <= |s.trace| && AskedInTime(Step(s, e), from, key, time)
    ensures AskedInTime(s, from, key, time) && !e.Clear?
    ensures e == GetOrFetch(key) ==> ClockAt(s.trace, |s.trace|) - time < CACHE_TIME_TO_LIVE_MILLISECONDS
  {
    var next := Step(s, e);
    assert next.trace[|s.trace|] == e;
    ClockStays(s.trace, e, |s.trace|);
    forall i | from <= i < |s.trace|
      ensures next.trace[i] == s.trace[i] && ClockAt(next.trace, i) == ClockAt(s.trace, i)
    {
      ClockStays(s.trace, e, i);
    }
  }

  lemma {:induction false} ServingLasts(from: State, events: seq<Event>, to: State, key: Key, entry: Entry, known: nat)
    requires Inv(from) && Serves(from, key, entry, known) && Leads(from, events, to)
    requires AskedInTime(to, |from.trace|, key, entry.cachedAt)
    ensures Inv(to) && Serves(to, key, entry, known) && |to.trace| >= |from.trace|
  {
    if events != [] {
      var before: State :| Leads(from, Init(events), before) && Enabled(before, Last(events)) && to == Step(before, Last(events));
      TraceGrows(from, Init(events), before);
      AskedInTimeBefore(before, Last(events), |from.trace|, key, entry.cachedAt);
      ServingLasts(from, Init(events), before, key, entry, known);
      ServingStays(before, Last(events), key, entry, known);
      StepKeepsInv(before, Last(events));
    }
  }

  lemma {:induction false} TraceGrows(from: State, events: seq<Event>, to: State)
    requires Leads(from, events, to)
    ensures |to.trace| == |from.trace| + |events|
  {
    if events != [] {
      var before: State :| Leads(from, Init(events), before) && Enabled(before, Last(events)) && to == Step(before, Last(events));
      TraceGrows(from, Init(events), before);
    }
  }

  /** How the next call of a served key is answered. */
  ghost predicate AnsweredByAge(t: State, key: Key, entry: Entry) {
    var called, age := Called(t, key), t.now - entry.cachedAt;
    if age < CACHE_TIME_TO_LIVE_MILLISECONDS
    then called.calls == t.calls + [Call(key, |t.trace|, Hit(entry.result, age))] && called.fetches == t.fetches
    else called.calls == t.calls + [Call(key, |t.trace|, Joined(|t.fetches|))] && |called.fetches| == |t.fetches| + 1
  }

  lemma ServedIsAnsweredByAge(t: State, key: Key, entry: Entry, known: nat)
    requires Serves(t, key, entry, known)
    ensures AnsweredByAge(t, key, entry)
  {
  }

  lemma DeliveryServes(s: State, f: nat, value: Value)
    requires Inv(s) && IsPending(s, f) && Current(s, f)
    ensures var delivered := Step(s, Resolve(f, value));
      Inv(delivered) && Serves(delivered, s.fetches[f].key, Entry(value, s.now), |s.fetches|)
  {
    assert s.activePromises[s.fetches[f].key] == f;
    StepKeepsInv(s, Resolve(f, value));
  }

  /**
   * What a fetch that no clear overtook delivers is served with its age, and no
   * fetch of its key begins, whatever else happens before the next clear, as
   * long as every call of the key is in time; the first that is not fetches anew.
   */
  lemma DeliveredValueIsServed(s: State, f: nat, value: Value, events: seq<Event>, t: State)
    requires Inv(s) && IsPending(s, f) && Current(s, f)
    requires Leads(Step(s, Resolve(f, value)), events, t)
    requires AskedInTime(t, |s.trace| + 1, s.fetches[f].key, s.now)
    ensures forall g :: |s.fetches| <= g < |t.fetches| ==> t.fetches[g].key != s.fetches[f].key
    ensures AnsweredByAge(t, s.fetches[f].key, Entry(value, s.now))
  {
    var key, entry := s.fetches[f].key, Entry(value, s.now);
    DeliveryServes(s, f, value);
    ServingLasts(Step(s, Resolve(f, value)), events, t, key, entry, |s.fetches|);
    ServedIsAnsweredByAge(t, key, entry, |s.fetches|);
  }

  /** While a fetch is in flight that no clear overtook, calls of its key join it and start no other. */
  lemma CallsCoalesce(s: State, f: nat)
    requires Inv(s) && IsPending(s, f) && Current(s, f) && !IsFresh(s, s.fetches[f].key)
    ensures var called := Step(s, GetOrFetch(s.fetches[f].key));
      Last(called.calls).reply == Joined(f) && called.fetches == s.fetches
  {
    assert s.activePromises[s.fetches[f].key] == f;
  }

  /** A fetch that a clear has overtaken changes neither map when it ends, whatever has begun since. */
  lemma SupersededFetchChangesNothing(s: State, e: Event)
    requires Inv(s) && Enabled(s, e) && (e.Resolve? || e.Reject?) && !Current(s, e.fetch)
    ensures Step(s, e).cacheStore == s.cacheStore && Step(s, e).activePromises == s.activePromises
  {
    var key := s.fetches[e.fetch].key;
    if key in s.activePromises {
      assert Current(s, s.activePromises[key]);
    }
  }

  // ── The manager ───────────────────────────────────────────────────

  /** The class itself. The promises made, the calls answered and what happened are only a record. */
  class StatsCacheManager {
    var cacheStore: map<Key, Entry>
    var activePromisesStore: map<Key, nat>
    var generation: nat
    var now: int
    // A promise is known by its number.
    var promised: nat
    ghost var fetches: seq<Fetch>
    ghost var calls: seq<Call>
    ghost var trace: seq<Event>

    ghost function Abs(): State
      reads this
    {
      State(cacheStore, activePromisesStore, generation, now, fetches, calls, trace)
    }

    ghost predicate Valid()
      reads this
    {
      Inv(Abs()) && promised == |fetches|
    }

    constructor ()
      ensures Abs() == EMPTY && Valid()
    {
      cacheStore, activePromisesStore, generation, now, promised := map[], map[], 0, 0, 0;
      fetches, calls, trace := [], [], [];
    }

    method ReadClock(currentTimestamp: int)
      requires Valid()
      modifies this
      ensures Valid() && Abs() == Step(old(Abs()), Tick(currentTimestamp))
    {
      StepKeepsInv(Abs(), Tick(currentTimestamp));
      now := currentTimestamp;
      trace := trace + [Tick(currentTimestamp)];
    }

    /** How a call is answered, and what it starts. */
    method Answer(cacheKey: Key) returns (reply: Reply)
      requires promised == |fetches|
      modifies this`promised, this`fetches, this`activePromisesStore
      ensures promised == |fetches|
      ensures Abs().(calls := calls + [Call(cacheKey, |trace|, reply)]) == Called(old(Abs()), cacheKey)
    {
      if cacheKey in cacheStore && now - cacheStore[cacheKey].cachedAt < CACHE_TIME_TO_LIVE_MILLISECONDS {
        return Hit(cacheStore[cacheKey].result, now - cacheStore[cacheKey].cachedAt);
      }
      if cacheKey !in activePromisesStore {
        fetches := fetches + [Fetch(cacheKey, generation, |trace|, Pending)];
        activePromisesStore := activePromisesStore[cacheKey := promised];
        promised := promised + 1;
      }
      reply := Joined(activePromisesStore[cacheKey]);
    }

    method GetOrFetch(cacheKey: Key) returns (reply: Reply)
      requires Valid()
      modifies this
      ensures Valid() && Abs() == Step(old(Abs()), Event.GetOrFetch(cacheKey))
      ensures calls == old(calls) + [Call(cacheKey, old(|trace|), reply)]
    {
      ghost var before := Abs();
      StepKeepsInv(before, Event.GetOrFetch(cacheKey));
      reply := Answer(cacheKey);
      calls := calls + [Call(cacheKey, |trace|, reply)];
      trace := trace + [Event.GetOrFetch(cacheKey)];
      assert Abs() == Step(before, Event.GetOrFetch(cacheKey));
    }

    /** The `settle` closure of a fetch. */
    method Settle(activePromise: nat, cacheKey: Key)
      modifies this`activePromisesStore
      ensures activePromisesStore == Settled(old(activePromisesStore), cacheKey, activePromise)
    {
      if cacheKey in activePromisesStore && activePromisesStore[cacheKey] == activePromise {
        activePromisesStore := activePromisesStore - {cacheKey};
      }
    }

    /** The callbacks have the key and the generation their fetch began with. */
    ghost predicate Captured(activePromise: nat, cacheKey: Key, startedGeneration: nat)
      reads this
    {
      && IsPending(Abs(), activePromise)
      && fetches[activePromise].key == cacheKey && fetches[activePromise].startedGeneration == startedGeneration
    }

    method OnResolved(activePromise: nat, cacheKey: Key, startedGeneration: nat, resultData: Value)
      requires Valid() && Captured(activePromise, cacheKey, startedGeneration)
      modifies this
      ensures Valid() && Abs() == Step(old(Abs()), Resolve(activePromise, resultData))
    {
      ghost var before := Abs();
      if generation == startedGeneration {
        cacheStore := cacheStore[cacheKey := Entry(resultData, now)];
      }
      Settle(activePromise, cacheKey);
      fetches := fetches[activePromise := fetches[activePromise].(outcome := Resolved(resultData, |trace|))];
      trace := trace + [Resolve(activePromise, resultData)];
      assert Abs() == Step(before, Resolve(activePromise, resultData));
      StepKeepsInv(before, Resolve(activePromise, resultData));
    }

    method OnRejected(activePromise: nat, cacheKey: Key, startedGeneration: nat)
      requires Valid() && Captured(activePromise, cacheKey, startedGeneration)
      modifies this
      ensures Valid() && Abs() == Step(old(Abs()), Reject(activePromise))
    {
      ghost var before := Abs();
      Settle(activePromise, cacheKey);
      fetches := fetches[activePromise := fetches[activePromise].(outcome := Rejected)];
      trace := trace + [Reject(activePromise)];
      assert Abs() == Step(before, Reject(activePromise));
      StepKeepsInv(before, Reject(activePromise));
    }

    method Clear()
      requires Valid()
      modifies this
      ensures Valid() && Abs() == Step(old(Abs()), Event.Clear)
    {
      StepKeepsInv(Abs(), Event.Clear);
      generation := generation + 1;
      cacheStore, activePromisesStore := map[], map[];
      trace := trace + [Event.Clear];
    }
  }
}
