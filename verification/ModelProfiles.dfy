/**
 * What a model's request surface accepts, and the options an adapter gets
 * after the rejected parts are removed or mapped.
 */
module ModelProfiles {
  import opened Prelude

  datatype SamplingParameter = Temperature | TopP | TopK | FrequencyPenalty | PresencePenalty

  /** A reasoning effort; a name outside the effort order is Custom. */
  datatype Effort = Off | Minimal | Low | Medium | High | XHigh | Max | Custom(name: string)

  datatype ToolChoice = Auto | Any | Tool | Never | Required | Named(name: string)

  const ALL_TOOL_CHOICE := [Auto, Any, Tool, Never]

  datatype Profile = Profile(
    rejectedParameters: seq<SamplingParameter>,
    efforts: Option<seq<Effort>>,
    toolChoice: seq<ToolChoice>)

  datatype Options = Options(
    sampling: map<SamplingParameter, string>,
    reasoningEffort: Option<Effort>,
    thinkingLevel: Option<Effort>,
    toolChoice: Option<ToolChoice>,
    rest: map<string, string>)

  /** The place of an effort in the effort order, -1 for an unknown one. */
  function Rank(e: Effort): int {
    match e
    case Off => 0
    case Minimal => 1
    case Low => 2
    case Medium => 3
    case High => 4
    case XHigh => 5
    case Max => 6
    case Custom(_) => -1
  }

  predicate Known(e: Effort) {
    Rank(e) >= 0
  }

  // ── The effort vocabulary of a catalog record ─────────────────────

  function OnlyKnown(levels: seq<Effort>): seq<Effort> {
    if levels == [] then [] else OnlyKnown(Init(levels)) + (if Known(Last(levels)) then [Last(levels)] else [])
  }

  function Unique(levels: seq<Effort>): seq<Effort> {
    if levels == [] then []
    else if Last(levels) in Init(levels) then Unique(Init(levels))
    else Unique(Init(levels)) + [Last(levels)]
  }

  function InsertByRank(e: Effort, sorted: seq<Effort>): seq<Effort> {
    if sorted == [] || Rank(e) <= Rank(sorted[0]) then [e] + sorted
    else [sorted[0]] + InsertByRank(e, sorted[1..])
  }

  function SortByRank(levels: seq<Effort>): seq<Effort> {
    if levels == [] then [] else InsertByRank(Last(levels), SortByRank(Init(levels)))
  }

  function EffortsOf(thinkingLevels: Option<seq<Effort>>, canDisableThinking: bool): Option<seq<Effort>> {
    var levels := if thinkingLevels.Some? then OnlyKnown(thinkingLevels.value) else [];
    if levels == [] then None
    else Some(SortByRank(Unique(if canDisableThinking then [Off] + levels else levels)))
  }

  /** Weakest to strongest, each once, none unknown. */
  ghost predicate IsVocabulary(efforts: seq<Effort>) {
    && efforts != []
    && (forall i :: 0 <= i < |efforts| ==> Known(efforts[i]))
    && (forall i, j :: 0 <= i < j < |efforts| ==> Rank(efforts[i]) < Rank(efforts[j]))
  }

  ghost predicate RanksAscend(s: seq<Effort>) {
    forall i, j :: 0 <= i < j < |s| ==> Rank(s[i]) < Rank(s[j])
  }

  lemma {:induction false} OnlyKnownKeeps(levels: seq<Effort>)
    ensures forall e :: e in OnlyKnown(levels) <==> e in levels && Known(e)
  {
    if levels != [] {
      OnlyKnownKeeps(Init(levels));
      InitAndLast(levels);
    }
  }

  lemma {:induction false} UniqueKeeps(levels: seq<Effort>)
    ensures Distinct(Unique(levels)) && forall e :: e in Unique(levels) <==> e in levels
  {
    if levels != [] {
      UniqueKeeps(Init(levels));
      InitAndLast(levels);
    }
  }

  lemma {:induction false} InsertingSorts(e: Effort, sorted: seq<Effort>)
    requires RanksAscend(sorted) && Known(e) && e !in sorted && forall x :: x in sorted ==> Known(x)
    ensures RanksAscend(InsertByRank(e, sorted))
    ensures forall x :: x in InsertByRank(e, sorted) <==> x in sorted || x == e
  {
    if sorted != [] && Rank(e) > Rank(sorted[0]) {
      assert sorted == [sorted[0]] + sorted[1..];
      InsertingSorts(e, sorted[1..]);
      forall x | x in InsertByRank(e, sorted[1..])
        ensures Rank(sorted[0]) < Rank(x)
      {
        assert x in sorted[1..] || x == e;
      }
    } else if sorted != [] {
      assert sorted[0] in sorted;
    }
  }

  lemma {:induction false} SortingSorts(levels: seq<Effort>)
    requires Distinct(levels) && forall e :: e in levels ==> Known(e)
    ensures RanksAscend(SortByRank(levels)) && forall e :: e in SortByRank(levels) <==> e in levels
  {
    if levels != [] {
      InitAndLast(levels);
      SortingSorts(Init(levels));
      InsertingSorts(Last(levels), SortByRank(Init(levels)));
    }
  }

  /** The vocabulary holds the record's known levels and, when thinking can be switched off, "none"; sorted, each once. */
  lemma EffortsOfIsVocabulary(thinkingLevels: Option<seq<Effort>>, canDisableThinking: bool)
    ensures match EffortsOf(thinkingLevels, canDisableThinking)
      case None => thinkingLevels.None? || forall e :: e in thinkingLevels.value ==> !Known(e)
      case Some(efforts) =>
        && IsVocabulary(efforts) && thinkingLevels.Some?
        && forall e :: e in efforts <==> (e in thinkingLevels.value && Known(e)) || (canDisableThinking && e == Off)
  {
    if thinkingLevels.Some? {
      var levels := OnlyKnown(thinkingLevels.value);
      OnlyKnownKeeps(thinkingLevels.value);
      if levels == [] {
        assert forall e :: e !in levels;
      } else {
        var all := if canDisableThinking then [Off] + levels else levels;
        UniqueKeeps(all);
        SortingSorts(Unique(all));
        var efforts := SortByRank(Unique(all));
        assert levels[0] in all;
        assert forall i :: 0 <= i < |efforts| ==> efforts[i] in efforts;
      }
    }
  }

  // ── The clamp ─────────────────────────────────────────────────────

  function FirstAbove(efforts: seq<Effort>, rank: int): Option<Effort> {
    if efforts == [] then None
    else if Rank(efforts[0]) > rank then Some(efforts[0])
    else FirstAbove(efforts[1..], rank)
  }

  function EffortWithinProfile(efforts: Option<seq<Effort>>, requested: Effort): Option<Effort>
    requires efforts.Some? ==> efforts.value != []
  {
    if efforts.None? || requested in efforts.value then Some(requested)
    else if Rank(requested) == -1 then None
    else if Rank(requested) < Rank(efforts.value[0]) then Some(efforts.value[0])
    else if Rank(requested) > Rank(Last(efforts.value)) then Some(Last(efforts.value))
    else FirstAbove(efforts.value, Rank(requested))
  }

  /** The least accepted effort at or above the requested one, or the strongest when there is none. */
  ghost predicate IsClamp(efforts: seq<Effort>, requested: Effort, effort: Effort) {
    && effort in efforts
    && if exists e :: e in efforts && Rank(e) >= Rank(requested) then
         Rank(effort) >= Rank(requested) && forall e :: e in efforts && Rank(e) >= Rank(requested) ==> Rank(effort) <= Rank(e)
       else
         forall e :: e in efforts ==> Rank(e) <= Rank(effort)
  }

  lemma {:induction false} FirstAboveIsLeast(efforts: seq<Effort>, rank: int)
    requires RanksAscend(efforts)
    ensures match FirstAbove(efforts, rank)
      case None => forall e :: e in efforts ==> Rank(e) <= rank
      case Some(effort) => effort in efforts && Rank(effort) > rank && forall e :: e in efforts && Rank(e) > rank ==> Rank(effort) <= Rank(e)
  {
    if efforts != [] {
      FirstAboveIsLeast(efforts[1..], rank);
      assert efforts == [efforts[0]] + efforts[1..];
    }
  }

  lemma EndsBound(efforts: seq<Effort>)
    requires IsVocabulary(efforts)
    ensures efforts[0] in efforts && Last(efforts) in efforts
    ensures forall e :: e in efforts ==> Rank(efforts[0]) <= Rank(e) <= Rank(Last(efforts))
  {
  }

  lemma UnacceptedHasNoRank(efforts: seq<Effort>, requested: Effort)
    requires IsVocabulary(efforts) && Known(requested) && requested !in efforts
    ensures forall e :: e in efforts ==> Rank(e) != Rank(requested)
  {
  }

  /** Between the ends of the vocabulary: the next level up. */
  lemma GapIsClosedUpwards(efforts: seq<Effort>, requested: Effort)
    requires IsVocabulary(efforts) && Known(requested) && requested !in efforts
    requires Rank(efforts[0]) <= Rank(requested) <= Rank(Last(efforts))
    ensures FirstAbove(efforts, Rank(requested)).Some? && IsClamp(efforts, requested, FirstAbove(efforts, Rank(requested)).value)
  {
    FirstAboveIsLeast(efforts, Rank(requested));
    EndsBound(efforts);
    UnacceptedHasNoRank(efforts, requested);
  }

  lemma ClampIsNearestAbove(efforts: seq<Effort>, requested: Effort)
    requires IsVocabulary(efforts) && Known(requested)
    ensures EffortWithinProfile(Some(efforts), requested).Some?
    ensures IsClamp(efforts, requested, EffortWithinProfile(Some(efforts), requested).value)
  {
    EndsBound(efforts);
    if requested !in efforts && Rank(efforts[0]) <= Rank(requested) <= Rank(Last(efforts)) {
      GapIsClosedUpwards(efforts, requested);
    }
  }

  lemma ClampIsMonotone(efforts: seq<Effort>, weaker: Effort, stronger: Effort)
    requires IsVocabulary(efforts) && Known(weaker) && Known(stronger) && Rank(weaker) <= Rank(stronger)
    ensures var low, high := EffortWithinProfile(Some(efforts), weaker), EffortWithinProfile(Some(efforts), stronger);
      low.Some? && high.Some? && Rank(low.value) <= Rank(high.value)
  {
    ClampIsNearestAbove(efforts, weaker);
    ClampIsNearestAbove(efforts, stronger);
  }

  // ── The rewrite ───────────────────────────────────────────────────

  /** A vocabulary is either absent or a real one. */
  ghost predicate Valid(profile: Profile) {
    profile.efforts.Some? ==> IsVocabulary(profile.efforts.value)
  }

  function WithoutAll(sampling: map<SamplingParameter, string>, rejected: seq<SamplingParameter>): map<SamplingParameter, string> {
    map p | p in sampling && p !in rejected :: sampling[p]
  }

  function ClampedOption(profile: Profile, requested: Option<Effort>): Option<Effort>
    requires Valid(profile)
  {
    if requested.None? || requested.value.Off? then requested else EffortWithinProfile(profile.efforts, requested.value)
  }

  function ModeOf(choice: ToolChoice): ToolChoice {
    if choice.Required? then Any else choice
  }

  function AcceptedChoice(profile: Profile, choice: Option<ToolChoice>): Option<ToolChoice> {
    if choice.Some? && ModeOf(choice.value) in ALL_TOOL_CHOICE && ModeOf(choice.value) !in profile.toolChoice then Some(Auto) else choice
  }

  function Applied(profile: Profile, options: Options): Options
    requires Valid(profile)
  {
    Options(
      WithoutAll(options.sampling, profile.rejectedParameters),
      ClampedOption(profile, options.reasoningEffort),
      ClampedOption(profile, options.thinkingLevel),
      AcceptedChoice(profile, options.toolChoice),
      options.rest)
  }

  // ── The profiles the service builds ───────────────────────────────

  /** Where a model is served; a local runtime counts as one. */
  datatype Provider = Local | Anthropic | Google | OpenAI | Moonshot | OtherProvider

  /** What the catalog says of a model. A model it does not know has no record. */
  datatype CatalogRecord = CatalogRecord(
    thinkingLevels: Option<seq<Effort>>,
    canDisableThinking: bool,
    lockedSampling: bool,
    adaptiveThinking: bool,
    deprecatedTopK: bool,
    noForcedToolChoice: bool)

  const NO_RECORD := CatalogRecord(None, false, false, false, false, false)

  const ALL_SAMPLING := [Temperature, TopP, TopK, FrequencyPenalty, PresencePenalty]

  function RejectedBy(provider: Provider, record: CatalogRecord): seq<SamplingParameter> {
    match provider
    case Anthropic =>
      if record.lockedSampling || record.adaptiveThinking then [Temperature, TopP, TopK]
      else if record.deprecatedTopK then [TopK] else []
    case Google => if record.lockedSampling then [Temperature, TopP, TopK] else []
    case OpenAI => if record.lockedSampling then ALL_SAMPLING else []
    case Moonshot => if record.lockedSampling then ALL_SAMPLING else []
    case _ => []
  }

  function ChoicesOf(provider: Provider, record: CatalogRecord): seq<ToolChoice> {
    match provider
    case Anthropic => if record.noForcedToolChoice then [Auto, Never] else ALL_TOOL_CHOICE
    case Google => [Auto, Any, Never]
    case Moonshot => [Auto, Any, Never]
    case _ => ALL_TOOL_CHOICE
  }

  function Built(provider: Provider, known: Option<CatalogRecord>): Profile {
    var record := if known.Some? then known.value else NO_RECORD;
    Profile(RejectedBy(provider, record), EffortsOf(record.thinkingLevels, record.canDisableThinking), ChoicesOf(provider, record))
  }

  method GetModelProfile(provider: Provider, known: Option<CatalogRecord>) returns (profile: Profile)
    ensures profile == Built(provider, known)
    ensures Valid(profile) && Auto in profile.toolChoice
  {
    var record := if known.Some? then known.value else NO_RECORD;
    profile := Profile([], EffortsOf(record.thinkingLevels, record.canDisableThinking), ALL_TOOL_CHOICE);
    match provider {
      case Anthropic =>
        if record.lockedSampling || record.adaptiveThinking {
          profile := profile.(rejectedParameters := [Temperature, TopP, TopK]);
        } else if record.deprecatedTopK {
          profile := profile.(rejectedParameters := [TopK]);
        }
        if record.noForcedToolChoice {
          profile := profile.(toolChoice := [Auto, Never]);
        }
      case Google =>
        if record.lockedSampling {
          profile := profile.(rejectedParameters := [Temperature, TopP, TopK]);
        }
        profile := profile.(toolChoice := [Auto, Any, Never]);
      case OpenAI =>
        if record.lockedSampling {
          profile := profile.(rejectedParameters := ALL_SAMPLING);
        }
      case Moonshot =>
        if record.lockedSampling {
          profile := profile.(rejectedParameters := ALL_SAMPLING);
        }
        profile := profile.(toolChoice := [Auto, Any, Never]);
      case _ =>
    }
    BuiltIsProper(provider, known);
  }

  /** Every profile the service builds has a vocabulary in order, if any, and accepts `auto`. */
  lemma BuiltIsProper(provider: Provider, known: Option<CatalogRecord>)
    ensures Valid(Built(provider, known)) && Auto in Built(provider, known).toolChoice
  {
    var record := if known.Some? then known.value else NO_RECORD;
    EffortsOfIsVocabulary(record.thinkingLevels, record.canDisableThinking);
    assert ALL_TOOL_CHOICE[0] == Auto;
  }

  /** Rejected parameters deleted one by one, then each effort, then the tool choice. */
  method ApplyModelProfile(profile: Profile, options: Options) returns (result: Options, changed: bool)
    requires Valid(profile)
    ensures result == Applied(profile, options)
    ensures !changed ==> result == options
  {
    result, changed := options, false;
    for i := 0 to |profile.rejectedParameters|
      invariant result == options.(sampling := WithoutAll(options.sampling, profile.rejectedParameters[..i]))
      invariant !changed ==> result == options
    {
      var parameter := profile.rejectedParameters[i];
      assert profile.rejectedParameters[..i + 1] == profile.rejectedParameters[..i] + [parameter];
      if parameter in result.sampling {
        result := result.(sampling := result.sampling - {parameter});
        changed := true;
      }
    }
    assert profile.rejectedParameters[..|profile.rejectedParameters|] == profile.rejectedParameters;
    if result.reasoningEffort.Some? && !result.reasoningEffort.value.Off? {
      var effort := EffortWithinProfile(profile.efforts, result.reasoningEffort.value);
      if effort != result.reasoningEffort {
        result, changed := result.(reasoningEffort := effort), true;
      }
    }
    if result.thinkingLevel.Some? && !result.thinkingLevel.value.Off? {
      var effort := EffortWithinProfile(profile.efforts, result.thinkingLevel.value);
      if effort != result.thinkingLevel {
        result, changed := result.(thinkingLevel := effort), true;
      }
    }
    if result.toolChoice.Some? {
      var mode := ModeOf(result.toolChoice.value);
      if mode in ALL_TOOL_CHOICE && mode !in profile.toolChoice {
        result, changed := result.(toolChoice := Some(Auto)), true;
      }
    }
  }

  ghost predicate EffortAccepted(profile: Profile, effort: Option<Effort>) {
    effort.None? || effort.value.Off? || profile.efforts.None? || effort.value in profile.efforts.value
  }

  ghost predicate ChoiceAccepted(profile: Profile, choice: Option<ToolChoice>) {
    choice.Some? && ModeOf(choice.value) in ALL_TOOL_CHOICE ==> ModeOf(choice.value) in profile.toolChoice
  }

  /** Nothing the model rejects is left; a rejected tool choice can only be repaired if "auto" is accepted. */
  lemma AppliedIsAccepted(profile: Profile, options: Options)
    requires Valid(profile)
    ensures var result := Applied(profile, options);
      && (forall p :: p in profile.rejectedParameters ==> p !in result.sampling)
      && (forall p :: p in options.sampling && p !in profile.rejectedParameters ==> p in result.sampling && result.sampling[p] == options.sampling[p])
      && EffortAccepted(profile, result.reasoningEffort) && EffortAccepted(profile, result.thinkingLevel)
      && (ChoiceAccepted(profile, result.toolChoice) <==> ChoiceAccepted(profile, options.toolChoice) || Auto in profile.toolChoice)
  {
    ClampedIsAccepted(profile, options.reasoningEffort);
    ClampedIsAccepted(profile, options.thinkingLevel);
  }

  /** For every provider and model, nothing the model rejects is left, the tool choice included, and what it accepts is kept. */
  lemma BuiltLeavesNothingRejected(provider: Provider, known: Option<CatalogRecord>, options: Options)
    ensures var profile := Built(provider, known);
      && Valid(profile)
      && var result := Applied(profile, options);
         && (forall p :: p in profile.rejectedParameters ==> p !in result.sampling)
         && EffortAccepted(profile, result.reasoningEffort) && EffortAccepted(profile, result.thinkingLevel)
         && ChoiceAccepted(profile, result.toolChoice)
         && (EffortAccepted(profile, options.reasoningEffort) ==> result.reasoningEffort == options.reasoningEffort)
         && (EffortAccepted(profile, options.thinkingLevel) ==> result.thinkingLevel == options.thinkingLevel)
         && (ChoiceAccepted(profile, options.toolChoice) ==> result.toolChoice == options.toolChoice)
         && Applied(profile, result) == result
  {
    BuiltIsProper(provider, known);
    AppliedIsAccepted(Built(provider, known), options);
    ApplyingTwiceChangesNothing(Built(provider, known), options);
  }

  lemma ClampedIsAccepted(profile: Profile, requested: Option<Effort>)
    requires Valid(profile)
    ensures EffortAccepted(profile, ClampedOption(profile, requested))
    ensures ClampedOption(profile, ClampedOption(profile, requested)) == ClampedOption(profile, requested)
  {
    if profile.efforts.Some? && requested.Some? && Known(requested.value) {
      ClampIsNearestAbove(profile.efforts.value, requested.value);
    }
  }

  lemma ApplyingTwiceChangesNothing(profile: Profile, options: Options)
    requires Valid(profile)
    ensures Applied(profile, Applied(profile, options)) == Applied(profile, options)
  {
    ClampedIsAccepted(profile, options.reasoningEffort);
    ClampedIsAccepted(profile, options.thinkingLevel);
    var once := WithoutAll(options.sampling, profile.rejectedParameters);
    assert WithoutAll(once, profile.rejectedParameters) == once;
  }

  // ── What is taken out, model by model ─────────────────────────────

  /** Claude and Gemini take none of these three once their sampling is locked. */
  predicate IsCoreSampling(p: SamplingParameter) {
    p == Temperature || p == TopP || p == TopK
  }

  /** Whether a model of the provider, as the catalog has it, takes the parameter. */
  predicate TakesSampling(provider: Provider, record: CatalogRecord, p: SamplingParameter) {
    && (provider == Anthropic && (record.lockedSampling || record.adaptiveThinking) ==> !IsCoreSampling(p))
    && (provider == Anthropic && record.deprecatedTopK ==> p != TopK)
    && (provider == Google && record.lockedSampling ==> !IsCoreSampling(p))
    && ((provider == OpenAI || provider == Moonshot) ==> !record.lockedSampling)
  }

  /** Whether it can be made to use a tool, or a given one. */
  predicate TakesChoice(provider: Provider, record: CatalogRecord, choice: ToolChoice) {
    match choice
    case Auto => true
    case Never => true
    case Any => !(provider == Anthropic && record.noForcedToolChoice)
    case Required => !(provider == Anthropic && record.noForcedToolChoice)
    case Tool => !(provider == Anthropic && record.noForcedToolChoice) && provider != Google && provider != Moonshot
    case Named(_) => true
  }

  /** Of the sampling options exactly those the model takes are left, with their values; a choice it does not take becomes `auto`. */
  lemma BuiltTakesOut(provider: Provider, record: CatalogRecord, options: Options)
    ensures var profile := Built(provider, Some(record));
      && Valid(profile)
      && var result := Applied(profile, options);
         && (forall p :: p in result.sampling <==> p in options.sampling && TakesSampling(provider, record, p))
         && (forall p :: p in result.sampling ==> result.sampling[p] == options.sampling[p])
         && (options.toolChoice.None? ==> result.toolChoice.None?)
         && (options.toolChoice.Some? ==>
               result.toolChoice == Some(if TakesChoice(provider, record, options.toolChoice.value) then options.toolChoice.value else Auto))
         && result.rest == options.rest
  {
    BuiltIsProper(provider, Some(record));
    RejectedAreNotTaken(provider, record);
    if options.toolChoice.Some? {
      ChoicesAreTaken(provider, record, options.toolChoice.value);
    }
  }

  lemma RejectedAreNotTaken(provider: Provider, record: CatalogRecord)
    ensures forall p :: p in RejectedBy(provider, record) <==> !TakesSampling(provider, record, p)
  {
    forall p ensures p in ALL_SAMPLING {
      assert ALL_SAMPLING[0] == Temperature && ALL_SAMPLING[1] == TopP && ALL_SAMPLING[2] == TopK;
      assert ALL_SAMPLING[3] == FrequencyPenalty && ALL_SAMPLING[4] == PresencePenalty;
      match p
      case Temperature =>
      case TopP =>
      case TopK =>
      case FrequencyPenalty =>
      case PresencePenalty =>
    }
    forall p ensures p in [Temperature, TopP, TopK] <==> IsCoreSampling(p) {
      assert [Temperature, TopP, TopK][0] == Temperature && [Temperature, TopP, TopK][1] == TopP && [Temperature, TopP, TopK][2] == TopK;
    }
  }

  lemma ChoicesAreTaken(provider: Provider, record: CatalogRecord, choice: ToolChoice)
    ensures TakesChoice(provider, record, choice) <==> (ModeOf(choice) in ALL_TOOL_CHOICE ==> ModeOf(choice) in ChoicesOf(provider, record))
  {
    assert ALL_TOOL_CHOICE[0] == Auto && ALL_TOOL_CHOICE[1] == Any && ALL_TOOL_CHOICE[2] == Tool && ALL_TOOL_CHOICE[3] == Never;
    assert [Auto, Never][0] == Auto && [Auto, Never][1] == Never;
    assert [Auto, Any, Never][0] == Auto && [Auto, Any, Never][1] == Any && [Auto, Any, Never][2] == Never;
  }

  /** What becomes of an effort that was asked for: kept, dropped when no one knows it, or clamped. */
  ghost predicate IsWithin(efforts: Option<seq<Effort>>, before: Option<Effort>, after: Option<Effort>) {
    if before == None || before == Some(Off) || efforts == None then after == before
    else if before.value in efforts.value then after == before
    else if before.value.Custom? then after == None
    else after.Some? && IsClamp(efforts.value, before.value, after.value)
  }

  lemma ClampedIsWithin(profile: Profile, requested: Option<Effort>)
    requires Valid(profile)
    ensures IsWithin(profile.efforts, requested, ClampedOption(profile, requested))
  {
    if profile.efforts.Some? && requested.Some? && Known(requested.value) {
      ClampIsNearestAbove(profile.efforts.value, requested.value);
    }
  }

  /** Both effort options, whatever the profile's vocabulary. */
  lemma EffortsAreWithin(profile: Profile, options: Options)
    requires Valid(profile)
    ensures var result := Applied(profile, options);
      && IsWithin(profile.efforts, options.reasoningEffort, result.reasoningEffort)
      && IsWithin(profile.efforts, options.thinkingLevel, result.thinkingLevel)
  {
    ClampedIsWithin(profile, options.reasoningEffort);
    ClampedIsWithin(profile, options.thinkingLevel);
  }

  /** A model the catalog does not know keeps every sampling option, and every effort. */
  lemma UnknownModelKeepsAll(provider: Provider, options: Options)
    ensures var profile := Built(provider, None);
      && Valid(profile)
      && var result := Applied(profile, options);
         && result.sampling == options.sampling
         && result.reasoningEffort == options.reasoningEffort && result.thinkingLevel == options.thinkingLevel
  {
    BuiltIsProper(provider, None);
    assert WithoutAll(options.sampling, []) == options.sampling;
  }
}
