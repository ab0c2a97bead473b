/**
 * The request and response schema of the quest designer (design brief,
 * dialogue line, quest step, reward, quest, section-regeneration request),
 * a strict validator from parsed JSON to each typed value, and the encoder
 * that dumps a typed value back to JSON (pydantic's `model_dump`).
 *
 * The validator accepts exactly what the schema declares: required fields
 * must be present with the declared JSON type, literal fields must carry one
 * of their literal tokens verbatim, optional fields may be absent or null,
 * and unknown fields are ignored. Nothing is coerced.
 */
module Models {
  import opened Wrappers
  import opened Json
  import Text

  // ---------------------------------------------------------------------
  // Literal types
  // ---------------------------------------------------------------------

  /** `Literal["NPC", "PLAYER"]`: who says a dialogue line, never a character name. */
  datatype Speaker = Npc | Player

  /** `Literal["xp", "gold", "item", "cosmetic", "other"]`. */
  datatype RewardType = Xp | Gold | Item | Cosmetic | Other

  /** `Literal["title", "summary", "steps"]`: the part of a quest to regenerate. */
  datatype Section = TitleSection | SummarySection | StepsSection

  function SpeakerToken(s: Speaker): string {
    match s
    case Npc => "NPC"
    case Player => "PLAYER"
  }

  function RewardTypeToken(t: RewardType): string {
    match t
    case Xp => "xp"
    case Gold => "gold"
    case Item => "item"
    case Cosmetic => "cosmetic"
    case Other => "other"
  }

  function SectionToken(s: Section): string {
    match s
    case TitleSection => "title"
    case SummarySection => "summary"
    case StepsSection => "steps"
  }

  const SpeakerTokens: seq<string> := ["NPC", "PLAYER"]
  const RewardTypeTokens: seq<string> := ["xp", "gold", "item", "cosmetic", "other"]
  const SectionTokens: seq<string> := ["title", "summary", "steps"]

  /** Reads a speaker token; only the two exact tokens are speakers. */
  function ParseSpeaker(s: string): (r: Option<Speaker>)
    ensures r.Some? <==> s in SpeakerTokens
    ensures r.Some? ==> SpeakerToken(r.value) == s
  {
    if s == "NPC" then Some(Npc)
    else if s == "PLAYER" then Some(Player)
    else None
  }

  function ParseRewardType(s: string): (r: Option<RewardType>)
    ensures r.Some? <==> s in RewardTypeTokens
    ensures r.Some? ==> RewardTypeToken(r.value) == s
  {
    if s == "xp" then Some(Xp)
    else if s == "gold" then Some(Gold)
    else if s == "item" then Some(Item)
    else if s == "cosmetic" then Some(Cosmetic)
    else if s == "other" then Some(Other)
    else None
  }

  function ParseSection(s: string): (r: Option<Section>)
    ensures r.Some? <==> s in SectionTokens
    ensures r.Some? ==> SectionToken(r.value) == s
  {
    if s == "title" then Some(TitleSection)
    else if s == "summary" then Some(SummarySection)
    else if s == "steps" then Some(StepsSection)
    else None
  }

  /** Every literal type reads back from its own token. */
  lemma TokensRoundTrip(s: Speaker, t: RewardType, c: Section)
    ensures ParseSpeaker(SpeakerToken(s)) == Some(s)
    ensures ParseRewardType(RewardTypeToken(t)) == Some(t)
    ensures ParseSection(SectionToken(c)) == Some(c)
  {
  }

  // ---------------------------------------------------------------------
  // Entities
  // ---------------------------------------------------------------------

  datatype QuestDesignBrief = QuestDesignBrief(
    zone: string,
    faction: string,
    tone: string,
    playerLevelMin: int,
    playerLevelMax: int,
    narrativeStyle: Option<string>,
    numberOfSteps: int,
    targetPlaytimeMinutes: Option<int>,
    forbiddenElements: Option<seq<string>>)

  const MinPlayerLevel := 1
  const MinSteps := 3
  const MaxSteps := 8
  const DefaultNumberOfSteps := 4

  /**
   * The field constraints of a brief: both levels at least 1 and the step
   * count in 3..8. The minimum level is not required to be at most the maximum.
   */
  predicate BriefConstraints(b: QuestDesignBrief) {
    && b.playerLevelMin >= MinPlayerLevel
    && b.playerLevelMax >= MinPlayerLevel
    && MinSteps <= b.numberOfSteps <= MaxSteps
  }

  datatype DialogueLine = DialogueLine(speaker: Speaker, text: string)

  datatype QuestStep = QuestStep(
    stepNumber: int,
    description: string,
    objective: string,
    npcDialogue: seq<DialogueLine>)

  datatype Reward = Reward(rewardType: RewardType, description: string, amount: Option<int>)

  datatype Quest = Quest(
    title: string,
    summary: string,
    zone: string,
    faction: string,
    tone: string,
    playerLevelMin: int,
    playerLevelMax: int,
    steps: seq<QuestStep>,
    rewards: seq<Reward>)

  datatype RegenerateSectionRequest = RegenerateSectionRequest(
    brief: QuestDesignBrief,
    quest: Quest,
    section: Section,
    stepIndex: Option<int>)

  // JSON keys of a quest and its parts, shared with the schema description.
  const TitleKey := "title"
  const SummaryKey := "summary"
  const ZoneKey := "zone"
  const FactionKey := "faction"
  const ToneKey := "tone"
  const LevelMinKey := "player_level_min"
  const LevelMaxKey := "player_level_max"
  const StepsKey := "steps"
  const RewardsKey := "rewards"
  const StepNumberKey := "step_number"
  const DescriptionKey := "description"
  const ObjectiveKey := "objective"
  const DialogueKey := "npc_dialogue"
  const SpeakerKey := "speaker"
  const TextKey := "text"
  const TypeKey := "type"
  const AmountKey := "amount"

  /** The nine required fields of a quest. */
  const QuestKeys: seq<string> :=
    [TitleKey, SummaryKey, ZoneKey, FactionKey, ToneKey, LevelMinKey, LevelMaxKey, StepsKey, RewardsKey]

  // ---------------------------------------------------------------------
  // Validation errors
  // ---------------------------------------------------------------------

  datatype ValidationError =
    | NotAnObject(model: string)
    | Missing(field: string)
    | WrongType(field: string, expected: string)
    | TooSmall(field: string, bound: int)
    | TooLarge(field: string, bound: int)
    | NotAllowed(field: string, allowed: seq<string>)

  /** A one-line rendering of a validation error, used in error messages. */
  function Describe(e: ValidationError): string {
    match e
    case NotAnObject(model) => model + ": input should be an object"
    case Missing(field) => field + ": field required"
    case WrongType(field, expected) => field + ": input should be a valid " + expected
    case TooSmall(field, bound) => field + ": input should be greater than or equal to " + Text.IntToString(bound)
    case TooLarge(field, bound) => field + ": input should be less than or equal to " + Text.IntToString(bound)
    case NotAllowed(field, allowed) => field + ": input should be one of " + Text.Join(allowed, ", ")
  }

  // ---------------------------------------------------------------------
  // Field readers
  // ---------------------------------------------------------------------

  predicate HasString(m: map<string, Json>, key: string) {
    key in m && m[key].JString?
  }

  predicate HasInt(m: map<string, Json>, key: string) {
    key in m && m[key].JInt?
  }

  predicate HasArray(m: map<string, Json>, key: string) {
    key in m && m[key].JArray?
  }

  /** Absent or null: what an `Optional[...] = None` field reads as None. */
  predicate IsUnset(m: map<string, Json>, key: string) {
    key !in m || m[key].JNull?
  }

  function RequiredString(m: map<string, Json>, key: string): (r: Result<string, ValidationError>)
    ensures r.Ok? <==> HasString(m, key)
    ensures r.Ok? ==> r.value == m[key].s
  {
    if key !in m then Err(Missing(key))
    else if m[key].JString? then Ok(m[key].s)
    else Err(WrongType(key, "string"))
  }

  function RequiredInt(m: map<string, Json>, key: string): (r: Result<int, ValidationError>)
    ensures r.Ok? <==> HasInt(m, key)
    ensures r.Ok? ==> r.value == m[key].n
  {
    if key !in m then Err(Missing(key))
    else if m[key].JInt? then Ok(m[key].n)
    else Err(WrongType(key, "integer"))
  }

  function RequiredArray(m: map<string, Json>, key: string): (r: Result<seq<Json>, ValidationError>)
    ensures r.Ok? <==> HasArray(m, key)
    ensures r.Ok? ==> r.value == m[key].items
  {
    if key !in m then Err(Missing(key))
    else if m[key].JArray? then Ok(m[key].items)
    else Err(WrongType(key, "list"))
  }

  function OptionalString(m: map<string, Json>, key: string): (r: Result<Option<string>, ValidationError>)
    ensures r.Ok? <==> IsUnset(m, key) || HasString(m, key)
    ensures r.Ok? ==> (r.value.None? <==> IsUnset(m, key))
    ensures r.Ok? && r.value.Some? ==> r.value.value == m[key].s
  {
    if IsUnset(m, key) then Ok(None)
    else if m[key].JString? then Ok(Some(m[key].s))
    else Err(WrongType(key, "string"))
  }

  function OptionalInt(m: map<string, Json>, key: string): (r: Result<Option<int>, ValidationError>)
    ensures r.Ok? <==> IsUnset(m, key) || HasInt(m, key)
    ensures r.Ok? ==> (r.value.None? <==> IsUnset(m, key))
    ensures r.Ok? && r.value.Some? ==> r.value.value == m[key].n
  {
    if IsUnset(m, key) then Ok(None)
    else if m[key].JInt? then Ok(Some(m[key].n))
    else Err(WrongType(key, "integer"))
  }

  /**
   * Validates every element of a list in order and stops at the first
   * failure. The list is accepted exactly when every element is, and the
   * result holds each element's value at the same position.
   */
  function ValidateEach<T>(js: seq<Json>, validate: Json -> Result<T, ValidationError>): (r: Result<seq<T>, ValidationError>)
    ensures r.Ok? <==> forall i :: 0 <= i < |js| ==> validate(js[i]).Ok?
    ensures r.Ok? ==> |r.value| == |js| && forall i :: 0 <= i < |js| ==> r.value[i] == validate(js[i]).value
    ensures r.Err? ==> exists i :: 0 <= i < |js| && validate(js[i]) == Err(r.error)
    decreases |js|
  {
    if js == [] then Ok([])
    else
      match validate(js[0])
      case Err(e) => Err(e)
      case Ok(x) =>
        match ValidateEach(js[1..], validate)
        case Err(e) =>
          assert forall i :: 1 <= i < |js| ==> js[i] == js[1..][i - 1];
          Err(e)
        case Ok(xs) =>
          assert forall i :: 1 <= i < |js| ==> js[i] == js[1..][i - 1];
          Ok([x] + xs)
  }

  /** Applies `f` to every element, keeping the order. */
  function MapSeq<A, B>(xs: seq<A>, f: A -> B): (r: seq<B>)
    ensures |r| == |xs| && forall i :: 0 <= i < |xs| ==> r[i] == f(xs[i])
  {
    seq(|xs|, i requires 0 <= i < |xs| => f(xs[i]))
  }

  /** Validating the encodings of a list gives the list back, when each element round-trips. */
  lemma ValidateEachOfEncoded<T>(xs: seq<T>, encode: T -> Json, validate: Json -> Result<T, ValidationError>)
    requires forall i :: 0 <= i < |xs| ==> validate(encode(xs[i])) == Ok(xs[i])
    ensures ValidateEach(MapSeq(xs, encode), validate) == Ok(xs)
  {
    var r := ValidateEach(MapSeq(xs, encode), validate);
    assert r.Ok?;
    assert r.value == xs;
  }

  function ExpectString(j: Json): (r: Result<string, ValidationError>)
    ensures r.Ok? <==> j.JString?
    ensures r.Ok? ==> r.value == j.s
  {
    if j.JString? then Ok(j.s) else Err(WrongType("forbidden_elements", "string"))
  }

  // ---------------------------------------------------------------------
  // QuestDesignBrief
  // ---------------------------------------------------------------------

  /** Absent, null, or a list of strings: what `Optional[List[str]]` accepts. */
  predicate IsOptionalStringList(m: map<string, Json>, key: string) {
    IsUnset(m, key) || (HasArray(m, key) && forall i :: 0 <= i < |m[key].items| ==> m[key].items[i].JString?)
  }

  /** The step count read from a brief: 4 when the field is absent. */
  function StepsOrDefault(m: map<string, Json>): Json {
    if "number_of_steps" in m then m["number_of_steps"] else JInt(DefaultNumberOfSteps)
  }

  /** What a JSON design brief must look like to be accepted, field by field. */
  predicate IsBriefJson(j: Json) {
    && j.JObject?
    && var m := j.fields;
    && HasString(m, "zone")
    && HasString(m, "faction")
    && HasString(m, "tone")
    && HasInt(m, "player_level_min") && m["player_level_min"].n >= MinPlayerLevel
    && HasInt(m, "player_level_max") && m["player_level_max"].n >= MinPlayerLevel
    && (IsUnset(m, "narrative_style") || HasString(m, "narrative_style"))
    && StepsOrDefault(m).JInt? && MinSteps <= StepsOrDefault(m).n <= MaxSteps
    && (IsUnset(m, "target_playtime_minutes") || HasInt(m, "target_playtime_minutes"))
    && IsOptionalStringList(m, "forbidden_elements")
  }

  function BoundedInt(key: string, v: int, lo: int, hi: Option<int>): (r: Result<int, ValidationError>)
    ensures r.Ok? <==> lo <= v && (hi.Some? ==> v <= hi.value)
    ensures r.Ok? ==> r.value == v
  {
    if v < lo then Err(TooSmall(key, lo))
    else if hi.Some? && v > hi.value then Err(TooLarge(key, hi.value))
    else Ok(v)
  }

  function ValidateBrief(j: Json): (r: Result<QuestDesignBrief, ValidationError>)
    ensures r.Ok? <==> IsBriefJson(j)
    ensures r.Ok? ==> BriefConstraints(r.value)
    ensures r.Ok? ==>
      && r.value.zone == j.fields["zone"].s
      && r.value.faction == j.fields["faction"].s
      && r.value.tone == j.fields["tone"].s
      && r.value.playerLevelMin == j.fields["player_level_min"].n
      && r.value.playerLevelMax == j.fields["player_level_max"].n
      && r.value.numberOfSteps == StepsOrDefault(j.fields).n
    ensures r.Ok? ==> (r.value.narrativeStyle.None? <==> IsUnset(j.fields, "narrative_style"))
    ensures r.Ok? && r.value.narrativeStyle.Some? ==> r.value.narrativeStyle.value == j.fields["narrative_style"].s
    ensures r.Ok? ==> (r.value.targetPlaytimeMinutes.None? <==> IsUnset(j.fields, "target_playtime_minutes"))
    ensures r.Ok? && r.value.targetPlaytimeMinutes.Some? ==>
      r.value.targetPlaytimeMinutes.value == j.fields["target_playtime_minutes"].n
    ensures r.Ok? ==> ValidateForbidden(j.fields) == Ok(r.value.forbiddenElements)
  {
    if !j.JObject? then Err(NotAnObject("QuestDesignBrief"))
    else
      var m := j.fields;
      var zone :- RequiredString(m, "zone");
      var faction :- RequiredString(m, "faction");
      var tone :- RequiredString(m, "tone");
      var levelMin :- RequiredInt(m, "player_level_min");
      var levelMin' :- BoundedInt("player_level_min", levelMin, MinPlayerLevel, None);
      var levelMax :- RequiredInt(m, "player_level_max");
      var levelMax' :- BoundedInt("player_level_max", levelMax, MinPlayerLevel, None);
      var style :- OptionalString(m, "narrative_style");
      var steps :- if "number_of_steps" !in m then Ok(DefaultNumberOfSteps) else RequiredInt(m, "number_of_steps");
      var steps' :- BoundedInt("number_of_steps", steps, MinSteps, Some(MaxSteps));
      var playtime :- OptionalInt(m, "target_playtime_minutes");
      var forbidden :- ValidateForbidden(m);
      Ok(QuestDesignBrief(zone, faction, tone, levelMin', levelMax', style, steps', playtime, forbidden))
  }

  function ValidateForbidden(m: map<string, Json>): (r: Result<Option<seq<string>>, ValidationError>)
    ensures r.Ok? <==> IsOptionalStringList(m, "forbidden_elements")
    ensures r.Ok? ==> (r.value.None? <==> IsUnset(m, "forbidden_elements"))
    ensures r.Ok? && r.value.Some? ==>
      |r.value.value| == |m["forbidden_elements"].items| &&
      forall i :: 0 <= i < |r.value.value| ==> JString(r.value.value[i]) == m["forbidden_elements"].items[i]
  {
    if IsUnset(m, "forbidden_elements") then Ok(None)
    else
      var items :- RequiredArray(m, "forbidden_elements");
      var xs :- ValidateEach(items, ExpectString);
      Ok(Some(xs))
  }

  function OptionalStringToJson(o: Option<string>): Json {
    match o
    case None => JNull
    case Some(s) => JString(s)
  }

  function OptionalIntToJson(o: Option<int>): Json {
    match o
    case None => JNull
    case Some(n) => JInt(n)
  }

  function StringToJson(s: string): Json {
    JString(s)
  }

  /** `QuestDesignBrief.model_dump()`: every field present, None as null. */
  function BriefToJson(b: QuestDesignBrief): Json {
    JObject(map[
      "zone" := JString(b.zone),
      "faction" := JString(b.faction),
      "tone" := JString(b.tone),
      "player_level_min" := JInt(b.playerLevelMin),
      "player_level_max" := JInt(b.playerLevelMax),
      "narrative_style" := OptionalStringToJson(b.narrativeStyle),
      "number_of_steps" := JInt(b.numberOfSteps),
      "target_playtime_minutes" := OptionalIntToJson(b.targetPlaytimeMinutes),
      "forbidden_elements" :=
        match b.forbiddenElements
        case None => JNull
        case Some(xs) => JArray(MapSeq(xs, StringToJson))
    ])
  }

  /** A brief that meets its constraints survives being dumped and validated again. */
  lemma BriefRoundTrip(b: QuestDesignBrief)
    requires BriefConstraints(b)
    ensures ValidateBrief(BriefToJson(b)) == Ok(b)
  {
    ForbiddenRoundTrip(b);
  }

  lemma ForbiddenRoundTrip(b: QuestDesignBrief)
    ensures ValidateForbidden(BriefToJson(b).fields) == Ok(b.forbiddenElements)
  {
    if b.forbiddenElements.Some? {
      ValidateEachOfEncoded(b.forbiddenElements.value, StringToJson, ExpectString);
    }
  }

  // ---------------------------------------------------------------------
  // NPCDialogueLine, QuestStep, Reward, Quest
  // ---------------------------------------------------------------------

  /** The speaker field holds one of the two speaker tokens, verbatim. */
  predicate HasSpeakerToken(m: map<string, Json>) {
    SpeakerKey in m && m[SpeakerKey].JString? && m[SpeakerKey].s in SpeakerTokens
  }

  function ValidateDialogueLine(j: Json): (r: Result<DialogueLine, ValidationError>)
    ensures r.Ok? <==> j.JObject? && HasSpeakerToken(j.fields) && HasString(j.fields, TextKey)
    ensures r.Ok? ==> j.fields[SpeakerKey] == JString(SpeakerToken(r.value.speaker))
    ensures r.Ok? ==> r.value.text == j.fields[TextKey].s
  {
    if !j.JObject? then Err(NotAnObject("NPCDialogueLine"))
    else
      var m := j.fields;
      var speaker :-
        if SpeakerKey !in m then Err(Missing(SpeakerKey))
        else if m[SpeakerKey].JString? && ParseSpeaker(m[SpeakerKey].s).Some? then Ok(ParseSpeaker(m[SpeakerKey].s).value)
        else Err(NotAllowed(SpeakerKey, SpeakerTokens));
      var text :- RequiredString(m, TextKey);
      Ok(DialogueLine(speaker, text))
  }

  function ValidateStep(j: Json): (r: Result<QuestStep, ValidationError>)
    ensures r.Ok? <==>
      && j.JObject?
      && HasInt(j.fields, StepNumberKey)
      && HasString(j.fields, DescriptionKey)
      && HasString(j.fields, ObjectiveKey)
      && HasArray(j.fields, DialogueKey)
      && forall i :: 0 <= i < |j.fields[DialogueKey].items| ==> ValidateDialogueLine(j.fields[DialogueKey].items[i]).Ok?
    ensures r.Ok? ==>
      && r.value.stepNumber == j.fields[StepNumberKey].n
      && r.value.description == j.fields[DescriptionKey].s
      && r.value.objective == j.fields[ObjectiveKey].s
    ensures r.Ok? ==>
      && |r.value.npcDialogue| == |j.fields[DialogueKey].items|
      && forall i :: 0 <= i < |r.value.npcDialogue| ==>
           ValidateDialogueLine(j.fields[DialogueKey].items[i]) == Ok(r.value.npcDialogue[i])
  {
    if !j.JObject? then Err(NotAnObject("QuestStep"))
    else
      var m := j.fields;
      var stepNumber :- RequiredInt(m, StepNumberKey);
      var description :- RequiredString(m, DescriptionKey);
      var objective :- RequiredString(m, ObjectiveKey);
      var items :- RequiredArray(m, DialogueKey);
      var lines :- ValidateEach(items, ValidateDialogueLine);
      Ok(QuestStep(stepNumber, description, objective, lines))
  }

  /** The type field holds one of the five reward tokens, verbatim. */
  predicate HasRewardTypeToken(m: map<string, Json>) {
    TypeKey in m && m[TypeKey].JString? && m[TypeKey].s in RewardTypeTokens
  }

  function ValidateReward(j: Json): (r: Result<Reward, ValidationError>)
    ensures r.Ok? <==>
      && j.JObject?
      && HasRewardTypeToken(j.fields)
      && HasString(j.fields, DescriptionKey)
      && (IsUnset(j.fields, AmountKey) || HasInt(j.fields, AmountKey))
    ensures r.Ok? ==> j.fields[TypeKey] == JString(RewardTypeToken(r.value.rewardType))
    ensures r.Ok? ==> r.value.description == j.fields[DescriptionKey].s
    ensures r.Ok? ==> (r.value.amount.None? <==> IsUnset(j.fields, AmountKey))
    ensures r.Ok? && r.value.amount.Some? ==> r.value.amount.value == j.fields[AmountKey].n
  {
    if !j.JObject? then Err(NotAnObject("Reward"))
    else
      var m := j.fields;
      var rewardType :-
        if TypeKey !in m then Err(Missing(TypeKey))
        else if m[TypeKey].JString? && ParseRewardType(m[TypeKey].s).Some? then Ok(ParseRewardType(m[TypeKey].s).value)
        else Err(NotAllowed(TypeKey, RewardTypeTokens));
      var description :- RequiredString(m, DescriptionKey);
      var amount :- OptionalInt(m, AmountKey);
      Ok(Reward(rewardType, description, amount))
  }

  /** What a JSON quest must look like to be accepted. */
  predicate IsQuestJson(j: Json) {
    && j.JObject?
    && var m := j.fields;
    && HasString(m, TitleKey)
    && HasString(m, SummaryKey)
    && HasString(m, ZoneKey)
    && HasString(m, FactionKey)
    && HasString(m, ToneKey)
    && HasInt(m, LevelMinKey)
    && HasInt(m, LevelMaxKey)
    && HasArray(m, StepsKey)
    && HasArray(m, RewardsKey)
    && (forall i :: 0 <= i < |m[StepsKey].items| ==> ValidateStep(m[StepsKey].items[i]).Ok?)
    && (forall i :: 0 <= i < |m[RewardsKey].items| ==> ValidateReward(m[RewardsKey].items[i]).Ok?)
  }

  function ValidateQuest(j: Json): (r: Result<Quest, ValidationError>)
    ensures r.Ok? <==> IsQuestJson(j)
    ensures r.Ok? ==>
      && r.value.title == j.fields[TitleKey].s
      && r.value.summary == j.fields[SummaryKey].s
      && r.value.zone == j.fields[ZoneKey].s
      && r.value.faction == j.fields[FactionKey].s
      && r.value.tone == j.fields[ToneKey].s
      && r.value.playerLevelMin == j.fields[LevelMinKey].n
      && r.value.playerLevelMax == j.fields[LevelMaxKey].n
    ensures r.Ok? ==>
      && |r.value.steps| == |j.fields[StepsKey].items|
      && (forall i :: 0 <= i < |r.value.steps| ==> ValidateStep(j.fields[StepsKey].items[i]) == Ok(r.value.steps[i]))
    ensures r.Ok? ==>
      && |r.value.rewards| == |j.fields[RewardsKey].items|
      && (forall i :: 0 <= i < |r.value.rewards| ==> ValidateReward(j.fields[RewardsKey].items[i]) == Ok(r.value.rewards[i]))
  {
    if !j.JObject? then Err(NotAnObject("Quest"))
    else
      var m := j.fields;
      var title :- RequiredString(m, TitleKey);
      var summary :- RequiredString(m, SummaryKey);
      var zone :- RequiredString(m, ZoneKey);
      var faction :- RequiredString(m, FactionKey);
      var tone :- RequiredString(m, ToneKey);
      var levelMin :- RequiredInt(m, LevelMinKey);
      var levelMax :- RequiredInt(m, LevelMaxKey);
      var stepItems :- RequiredArray(m, StepsKey);
      var steps :- ValidateEach(stepItems, ValidateStep);
      var rewardItems :- RequiredArray(m, RewardsKey);
      var rewards :- ValidateEach(rewardItems, ValidateReward);
      Ok(Quest(title, summary, zone, faction, tone, levelMin, levelMax, steps, rewards))
  }

  function DialogueLineToJson(d: DialogueLine): Json {
    JObject(map[SpeakerKey := JString(SpeakerToken(d.speaker)), TextKey := JString(d.text)])
  }

  function StepToJson(s: QuestStep): Json {
    JObject(map[
      StepNumberKey := JInt(s.stepNumber),
      DescriptionKey := JString(s.description),
      ObjectiveKey := JString(s.objective),
      DialogueKey := JArray(MapSeq(s.npcDialogue, DialogueLineToJson))
    ])
  }

  function RewardToJson(r: Reward): Json {
    JObject(map[
      TypeKey := JString(RewardTypeToken(r.rewardType)),
      DescriptionKey := JString(r.description),
      AmountKey := OptionalIntToJson(r.amount)
    ])
  }

  /** `Quest.model_dump()`. */
  function QuestToJson(q: Quest): Json {
    JObject(map[
      TitleKey := JString(q.title),
      SummaryKey := JString(q.summary),
      ZoneKey := JString(q.zone),
      FactionKey := JString(q.faction),
      ToneKey := JString(q.tone),
      LevelMinKey := JInt(q.playerLevelMin),
      LevelMaxKey := JInt(q.playerLevelMax),
      StepsKey := JArray(MapSeq(q.steps, StepToJson)),
      RewardsKey := JArray(MapSeq(q.rewards, RewardToJson))
    ])
  }

  lemma DialogueLineRoundTrip(d: DialogueLine)
    ensures ValidateDialogueLine(DialogueLineToJson(d)) == Ok(d)
  {
    TokensRoundTrip(d.speaker, Xp, TitleSection);
  }

  lemma StepRoundTrip(s: QuestStep)
    ensures ValidateStep(StepToJson(s)) == Ok(s)
  {
    forall i | 0 <= i < |s.npcDialogue| {
      DialogueLineRoundTrip(s.npcDialogue[i]);
    }
    ValidateEachOfEncoded(s.npcDialogue, DialogueLineToJson, ValidateDialogueLine);
  }

  lemma RewardRoundTrip(r: Reward)
    ensures ValidateReward(RewardToJson(r)) == Ok(r)
  {
    TokensRoundTrip(Npc, r.rewardType, TitleSection);
  }

  /**
   * Every quest survives being dumped and validated again, whatever its
   * number of steps and whatever its step numbers: the schema constrains
   * neither.
   */
  lemma QuestRoundTrip(q: Quest)
    ensures ValidateQuest(QuestToJson(q)) == Ok(q)
  {
    var r := ValidateQuest(QuestToJson(q));
    forall i | 0 <= i < |q.steps| {
      StepRoundTrip(q.steps[i]);
    }
    forall i | 0 <= i < |q.rewards| {
      RewardRoundTrip(q.rewards[i]);
    }
    assert r.Ok?;
    assert r.value.steps == q.steps;
    assert r.value.rewards == q.rewards;
  }

  /** A quest lacking any one of its nine fields is rejected. */
  lemma QuestMissingFieldRejected(j: Json, key: string)
    requires j.JObject? && key in QuestKeys && key !in j.fields
    ensures ValidateQuest(j).Err?
  {
  }

  /**
   * A dialogue line whose speaker is anything but the two tokens (a
   * character name such as "Guard", or "npc" in lower case) fails the whole
   * quest; it is never read as NPC.
   */
  lemma QuestWithNamedSpeakerRejected(j: Json, i: nat, k: nat)
    requires j.JObject? && HasArray(j.fields, StepsKey) && i < |j.fields[StepsKey].items|
    requires var step := j.fields[StepsKey].items[i];
      step.JObject? && HasArray(step.fields, DialogueKey) && k < |step.fields[DialogueKey].items|
    requires var line := j.fields[StepsKey].items[i].fields[DialogueKey].items[k];
      line.JObject? && HasString(line.fields, SpeakerKey) && line.fields[SpeakerKey].s !in SpeakerTokens
    ensures ValidateQuest(j).Err?
  {
    var step := j.fields[StepsKey].items[i];
    assert ValidateDialogueLine(step.fields[DialogueKey].items[k]).Err?;
    assert ValidateStep(step).Err?;
  }

  /** The level range is not checked for order: minimum 20 with maximum 10 is a valid brief. */
  lemma InvertedLevelRangeAccepted()
    ensures ValidateBrief(BriefToJson(QuestDesignBrief("Swamp", "Hollow Covenant", "dark", 20, 10, None, 4, None, None))).Ok?
  {
    BriefRoundTrip(QuestDesignBrief("Swamp", "Hollow Covenant", "dark", 20, 10, None, 4, None, None));
  }

  // ---------------------------------------------------------------------
  // RegenerateSectionRequest
  // ---------------------------------------------------------------------

  function ValidateRegenerateRequest(j: Json): (r: Result<RegenerateSectionRequest, ValidationError>)
    ensures r.Ok? <==>
      && j.JObject?
      && "brief" in j.fields && ValidateBrief(j.fields["brief"]).Ok?
      && "quest" in j.fields && ValidateQuest(j.fields["quest"]).Ok?
      && "section" in j.fields && j.fields["section"].JString? && j.fields["section"].s in SectionTokens
      && (IsUnset(j.fields, "step_index") || HasInt(j.fields, "step_index"))
    ensures r.Ok? ==>
      && ValidateBrief(j.fields["brief"]) == Ok(r.value.brief)
      && ValidateQuest(j.fields["quest"]) == Ok(r.value.quest)
      && j.fields["section"] == JString(SectionToken(r.value.section))
      && (r.value.stepIndex.None? <==> IsUnset(j.fields, "step_index"))
      && (r.value.stepIndex.Some? ==> j.fields["step_index"] == JInt(r.value.stepIndex.value))
  {
    if !j.JObject? then Err(NotAnObject("RegenerateSectionRequest"))
    else
      var m := j.fields;
      var brief :- if "brief" in m then ValidateBrief(m["brief"]) else Err(Missing("brief"));
      var quest :- if "quest" in m then ValidateQuest(m["quest"]) else Err(Missing("quest"));
      var section :-
        if "section" !in m then Err(Missing("section"))
        else if m["section"].JString? && ParseSection(m["section"].s).Some? then Ok(ParseSection(m["section"].s).value)
        else Err(NotAllowed("section", SectionTokens));
      var stepIndex :- OptionalInt(m, "step_index");
      Ok(RegenerateSectionRequest(brief, quest, section, stepIndex))
  }

  /** The request body the browser posts: `{brief, quest, section, step_index}`. */
  function RegenerateRequestToJson(req: RegenerateSectionRequest): Json {
    JObject(map[
      "brief" := BriefToJson(req.brief),
      "quest" := QuestToJson(req.quest),
      "section" := JString(SectionToken(req.section)),
      "step_index" := OptionalIntToJson(req.stepIndex)
    ])
  }

  /**
   * A request whose brief meets its constraints round-trips, whatever its
   * step index: the index is not checked against the quest's steps, not
   * even when the section is "steps".
   */
  lemma RegenerateRequestRoundTrip(req: RegenerateSectionRequest)
    requires BriefConstraints(req.brief)
    ensures ValidateRegenerateRequest(RegenerateRequestToJson(req)) == Ok(req)
  {
    var j := RegenerateRequestToJson(req);
    assert j.fields["brief"] == BriefToJson(req.brief);
    BriefRoundTrip(req.brief);
    assert j.fields["quest"] == QuestToJson(req.quest);
    QuestRoundTrip(req.quest);
    RequestOfValidParts(j, req);
  }

  /** A request object whose four parts validate to a request's parts validates to that request. */
  lemma RequestOfValidParts(j: Json, req: RegenerateSectionRequest)
    requires j.JObject? && "brief" in j.fields && "quest" in j.fields && "section" in j.fields && "step_index" in j.fields
    requires ValidateBrief(j.fields["brief"]) == Ok(req.brief)
    requires ValidateQuest(j.fields["quest"]) == Ok(req.quest)
    requires j.fields["section"] == JString(SectionToken(req.section))
    requires j.fields["step_index"] == OptionalIntToJson(req.stepIndex)
    ensures ValidateRegenerateRequest(j) == Ok(req)
  {
    var r := ValidateRegenerateRequest(j);
    assert j.fields["section"].s in SectionTokens by {
      TokensRoundTrip(Npc, Xp, req.section);
    }
    assert r.Ok?;
    assert r.value.section == req.section by {
      TokensRoundTrip(Npc, Xp, req.section);
      TokensRoundTrip(Npc, Xp, r.value.section);
    }
    assert r.value.stepIndex == req.stepIndex;
    assert r.value == RegenerateSectionRequest(req.brief, req.quest, req.section, req.stepIndex);
  }
}
