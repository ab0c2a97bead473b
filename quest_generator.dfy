/**
 * The prompts sent to the language model and the two service operations:
 * generating a quest from a brief, and regenerating one section of a quest.
 *
 * Each prompt is the source's indented triple-quoted text, dedented and
 * stripped. The constant prompts are written here already dedented; the two
 * prompts with substitutions keep the source's eight-space margin, which
 * dedenting leaves in place because the embedded schema description has
 * lines at column 0 (see README). `json.dumps(..., indent=2)` is the `Dumps`
 * parameter.
 */
module QuestGenerator {
  import opened Wrappers
  import opened Json
  import opened Text
  import opened Models
  import opened LlmClient

  /** `json.dumps(value, indent=2)`. */
  type Dumps = Json -> string

  const Margin := "        "
  const LineBreak := "\n"

  /** The margin text around a substituted prompt: its opening line break and indented closing line. */
  function Pad(body: string): string {
    MarginLine + body + MarginLine
  }

  /** A line break followed by the margin. */
  const MarginLine := "\n" + Margin

  /** Stripping a padded text gives the text back when neither of its ends is whitespace. */
  lemma StripPadded(body: string)
    requires |body| > 0 && body[0] !in PyWhitespace && body[|body| - 1] !in PyWhitespace
    ensures Trim(Pad(body), PyWhitespace) == body
  {
    TrimPadded(MarginLine, body, MarginLine, PyWhitespace);
  }

  function Quote(s: string): string {
    "\"" + s + "\""
  }

  function Spaces(n: nat): (r: string)
    ensures |r| == n && AllIn(r, {' '})
  {
    seq(n, _ => ' ')
  }

  /** One `"key": rest` line of the schema description. */
  function FieldLine(indent: nat, key: string, rest: string): string {
    Spaces(indent) + Quote(key) + ": " + rest
  }

  /** The two allowed speakers, as the prompts spell them. */
  const SpeakerChoice := Quote(SpeakerToken(Npc)) + " or " + Quote(SpeakerToken(Player))

  /** The five reward types, quoted and separated by bars. */
  const RewardTypeChoice := Join(MapSeq(RewardTypeTokens, Quote), " | ")

  // ---------------------------------------------------------------------
  // System prompt
  // ---------------------------------------------------------------------

  const SystemPromptLines: seq<string> := [
    // The first word stands alone so that proofs can read the first character.
    "You" + " are an experienced game narrative designer and systems designer.",
    "You design quests for modern online games with clear objectives,",
    "strong thematic coherence, and concise, production-ready text.",
    "",
    "Your task is to produce " + StrictJson + " that conforms exactly to the schema",
    "described by the user. Do not include any extra commentary, markdown,",
    "or explanations. " + OnlyJson
  ]

  const StrictJson := "STRICT JSON"
  const OnlyJson := "Only output JSON."

  /** `_build_system_prompt()`: a constant, the lines of the prompt joined by line breaks. */
  function SystemPrompt(): (r: string)
    ensures IsTrimmed(r, PyWhitespace)
  {
    assert SystemPromptLines[0][0] == 'Y';
    assert SystemPromptLines[6][|SystemPromptLines[6]| - 1] == '.';
    JoinTrimmed(SystemPromptLines, LineBreak);
    Join(SystemPromptLines, LineBreak)
  }

  /** The system prompt is its source text stripped: stripping removes only the opening and closing line breaks. */
  lemma SystemPromptIsStrippedText()
    ensures Trim(LineBreak + SystemPrompt() + LineBreak, PyWhitespace) == SystemPrompt()
  {
    TrimPadded(LineBreak, SystemPrompt(), LineBreak, PyWhitespace);
  }

  /** A join whose first piece does not start, and whose last piece does not end, with whitespace is trimmed. */
  lemma JoinTrimmed(xs: seq<string>, sep: string)
    requires |xs| >= 1 && xs[0] != [] && xs[|xs| - 1] != []
    requires xs[0][0] !in PyWhitespace && xs[|xs| - 1][|xs[|xs| - 1]| - 1] !in PyWhitespace
    ensures IsTrimmed(Join(xs, sep), PyWhitespace)
  {
    JoinStartsWithFirst(xs, sep);
    JoinEndsWithLast(xs, sep);
  }

  /** The system prompt demands strict JSON output and nothing else. */
  lemma SystemPromptDemandsJson()
    ensures Contains(SystemPrompt(), StrictJson)
    ensures Contains(SystemPrompt(), OnlyJson)
  {
    JoinContains(SystemPromptLines, LineBreak, 4);
    OccursAfter("Your task is to produce ", StrictJson, " that conforms exactly to the schema");
    ContainsWithin(SystemPrompt(), SystemPromptLines[4], StrictJson);
    JoinContains(SystemPromptLines, LineBreak, 6);
    assert OccursAt(OnlyJson, OnlyJson, 0);
    OccursSuffix("or explanations. ", OnlyJson, OnlyJson, 0);
    ContainsWithin(SystemPrompt(), SystemPromptLines[6], OnlyJson);
  }

  // ---------------------------------------------------------------------
  // Schema description
  // ---------------------------------------------------------------------

  const SpeakerSchemaLine := Spaces(10) + Quote(SpeakerKey) + ": must be exactly " + SpeakerChoice + " (not a character name),"
  const RewardTypeSchemaLine := Spaces(6) + Quote(TypeKey) + ": " + RewardTypeChoice + ","

  const SchemaLines: seq<string> := [
    // The first word stands alone so that proofs can read the first character.
    "The" + " JSON object must have the following structure:",
    "",
    "{",
    FieldLine(2, TitleKey, "string,"),
    FieldLine(2, SummaryKey, "string,"),
    FieldLine(2, ZoneKey, "string,"),
    FieldLine(2, FactionKey, "string,"),
    FieldLine(2, ToneKey, "string,"),
    FieldLine(2, LevelMinKey, "integer,"),
    FieldLine(2, LevelMaxKey, "integer,"),
    FieldLine(2, StepsKey, "["),
    "    {",
    FieldLine(6, StepNumberKey, "integer,"),
    FieldLine(6, DescriptionKey, "string,"),
    FieldLine(6, ObjectiveKey, "string,"),
    FieldLine(6, DialogueKey, "["),
    "        {",
    SpeakerSchemaLine,
    FieldLine(10, TextKey, "string"),
    "        },",
    "        ...",
    "      ]",
    "    },",
    "    ...",
    "  ],",
    FieldLine(2, RewardsKey, "["),
    "    {",
    RewardTypeSchemaLine,
    FieldLine(6, DescriptionKey, "string,"),
    FieldLine(6, AmountKey, "integer or null"),
    "    },",
    "    ...",
    "  ]",
    "}",
    "",
    "CRITICAL: In npc_dialogue entries:",
    "- \"speaker\" MUST be exactly the literal string \"NPC\" (when an NPC is speaking) or \"PLAYER\" (when the player is speaking).",
    "- Do NOT use character names like \"Jora\", \"Guard\", \"Swamp Guardian\" - these belong in the dialogue text, not as the speaker field.",
    "- Each dialogue line must indicate WHO is speaking using only " + SpeakerChoice + "."
  ]

  /** `_build_quest_schema_description()`: a constant, the schema lines, dedented, joined by line breaks. */
  function SchemaDescription(): (r: string)
    ensures IsTrimmed(r, PyWhitespace)
  {
    assert SchemaLines[0][0] == 'T';
    assert SchemaLines[38][|SchemaLines[38]| - 1] == '.';
    JoinTrimmed(SchemaLines, LineBreak);
    Join(SchemaLines, LineBreak)
  }

  /** The schema description is its source text stripped: stripping removes only the opening and closing line breaks. */
  lemma SchemaDescriptionIsStrippedText()
    ensures Trim(LineBreak + SchemaDescription() + LineBreak, PyWhitespace) == SchemaDescription()
  {
    TrimPadded(LineBreak, SchemaDescription(), LineBreak, PyWhitespace);
  }

  /** Every line of the schema description occurs in it. */
  lemma SchemaHasLine(i: nat)
    requires i < |SchemaLines|
    ensures Contains(SchemaDescription(), SchemaLines[i])
  {
    JoinContains(SchemaLines, LineBreak, i);
  }

  lemma FieldLineMentionsKey(indent: nat, key: string, rest: string)
    ensures Contains(FieldLine(indent, key, rest), Quote(key))
  {
    OccursAfter(Spaces(indent), Quote(key), ": ");
    OccursPrefix(Spaces(indent) + Quote(key) + ": ", rest, Quote(key), indent);
  }

  /** The schema line that declares the `i`-th quest field. */
  lemma QuestKeyLine(i: nat) returns (line: nat, rest: string)
    requires i < |QuestKeys|
    ensures line < |SchemaLines| && SchemaLines[line] == FieldLine(2, QuestKeys[i], rest)
  {
    if i < 5 {
      line, rest := 3 + i, "string,";
    } else if i < 7 {
      line, rest := 3 + i, "integer,";
    } else if i == 7 {
      line, rest := 10, "[";
    } else {
      line, rest := 25, "[";
    }
  }

  lemma SchemaMentionsQuestKey(i: nat)
    requires i < |QuestKeys|
    ensures Contains(SchemaDescription(), Quote(QuestKeys[i]))
  {
    var line, rest := QuestKeyLine(i);
    SchemaHasLine(line);
    FieldLineMentionsKey(2, QuestKeys[i], rest);
    ContainsWithin(SchemaDescription(), SchemaLines[line], Quote(QuestKeys[i]));
  }

  /** The schema description names each of the nine quest fields, in quotes. */
  lemma SchemaMentionsQuestKeys()
    ensures forall k :: k in QuestKeys ==> Contains(SchemaDescription(), Quote(k))
  {
    forall k | k in QuestKeys
      ensures Contains(SchemaDescription(), Quote(k))
    {
      var i :| 0 <= i < |QuestKeys| && QuestKeys[i] == k;
      SchemaMentionsQuestKey(i);
    }
  }

  /** The schema description restricts the speaker to "NPC" or "PLAYER". */
  lemma SchemaStatesSpeakerRule()
    ensures Contains(SchemaDescription(), SpeakerChoice)
  {
    SchemaHasSpeakerLine();
    SpeakerLineStatesChoice();
    ContainsWithin(SchemaDescription(), SpeakerSchemaLine, SpeakerChoice);
  }

  lemma SchemaHasSpeakerLine()
    ensures Contains(SchemaDescription(), SpeakerSchemaLine)
  {
    assert SchemaLines[17] == SpeakerSchemaLine;
    SchemaHasLine(17);
  }

  lemma SpeakerLineStatesChoice()
    ensures Contains(SpeakerSchemaLine, SpeakerChoice)
  {
    OccursAfter(Spaces(10) + Quote(SpeakerKey) + ": must be exactly ", SpeakerChoice, " (not a character name),");
  }

  /** The schema description lists every one of the five reward types, in quotes. */
  lemma SchemaListsRewardTypes()
    ensures forall t :: t in RewardTypeTokens ==> Contains(SchemaDescription(), Quote(t))
  {
    SchemaHasRewardTypeChoice();
    forall t | t in RewardTypeTokens
      ensures Contains(SchemaDescription(), Quote(t))
    {
      var i :| 0 <= i < |RewardTypeTokens| && RewardTypeTokens[i] == t;
      RewardTypeChoiceLists(i);
      ContainsWithin(SchemaDescription(), RewardTypeChoice, Quote(t));
    }
  }

  lemma SchemaHasRewardTypeChoice()
    ensures Contains(SchemaDescription(), RewardTypeChoice)
  {
    SchemaHasLine(27);
    OccursAfter(Spaces(6) + Quote(TypeKey) + ": ", RewardTypeChoice, ",");
    ContainsWithin(SchemaDescription(), RewardTypeSchemaLine, RewardTypeChoice);
  }

  lemma RewardTypeChoiceLists(i: nat)
    requires i < |RewardTypeTokens|
    ensures Contains(RewardTypeChoice, Quote(RewardTypeTokens[i]))
  {
    JoinContains(MapSeq(RewardTypeTokens, Quote), " | ", i);
  }

  // ---------------------------------------------------------------------
  // Prompts with substitutions
  // ---------------------------------------------------------------------

  /** The heading before the embedded schema description, shared by both prompts. */
  const SchemaHeading := "\n\n" + Margin + "SCHEMA DESCRIPTION:\n" + Margin

  const BriefIntro :=
    // The first word stands alone so that proofs can read the first character.
    "Design" + " a quest according to the following design brief and output\n"
    + Margin + "a JSON object following the schema described below.\n\n"
    + Margin + "DESIGN BRIEF (JSON):\n" + Margin

  const RequirementsIntro :=
    "\n\n" + Margin + "Additional requirements:\n"
    + Margin + "- The quest should be thematically consistent with the zone and faction.\n"
    + Margin + "- The tone field should be reflected in the writing style.\n"
    + Margin

  const RequirementsMiddle :=
    "\n" + Margin + "- Keep text concise and production-ready.\n"
    + Margin + "- Ensure all required fields are present and valid.\n"
    + Margin + "- IMPORTANT: In dialogue exchanges, the " + Quote(SpeakerKey) + " field must ONLY be "

  const RequirementsEnd :=
    " - never use character names or NPC identities as the speaker value."
    + " Character names and descriptions should appear in the dialogue text itself, not in the speaker field."

  /** The requirement fixing the step count: the same number is both bounds. */
  function StepBounds(n: int): string {
    "- Use between " + IntToString(n) + " and " + IntToString(n) + " steps."
  }

  function Requirements(n: int): string {
    RequirementsIntro + StepBounds(n) + RequirementsMiddle + SpeakerChoice + RequirementsEnd
  }

  /** The text of the generation prompt between its margins. */
  function BriefPromptBody(dumpedBrief: string, schema: string, n: int): string {
    (BriefIntro + dumpedBrief) + (SchemaHeading + schema) + Requirements(n)
  }

  /**
   * `_build_user_prompt_from_brief(brief)`: the brief serialised, the schema
   * description, and the brief's step count, within the fixed text.
   */
  function UserPromptFromBrief(dumps: Dumps, brief: QuestDesignBrief): string {
    BriefPromptBody(dumps(BriefToJson(brief)), SchemaDescription(), brief.numberOfSteps)
  }

  /** The prompt is the template text stripped: stripping removes exactly its margins. */
  lemma UserPromptIsStrippedTemplate(dumps: Dumps, brief: QuestDesignBrief)
    ensures UserPromptFromBrief(dumps, brief) == Trim(Pad(UserPromptFromBrief(dumps, brief)), PyWhitespace)
  {
    BriefPromptStripped(dumps(BriefToJson(brief)), SchemaDescription(), brief.numberOfSteps);
  }

  /** Whatever is substituted into it, the generation prompt's text loses only its margins when stripped. */
  lemma BriefPromptStripped(d: string, x: string, n: int)
    ensures Trim(Pad(BriefPromptBody(d, x, n)), PyWhitespace) == BriefPromptBody(d, x, n)
  {
    BriefIntroStart();
    RequirementsFinish(n);
    StripTemplate(BriefIntro, d, SchemaHeading, x, Requirements(n));
  }

  lemma BriefIntroStart()
    ensures |BriefIntro| > 0 && BriefIntro[0] == 'D'
  {
  }

  lemma RequirementsFinish(n: int)
    ensures |Requirements(n)| > 0 && Requirements(n)[|Requirements(n)| - 1] == '.'
  {
    assert RequirementsEnd[|RequirementsEnd| - 1] == '.';
    LastOfConcat(RequirementsIntro + StepBounds(n) + RequirementsMiddle + SpeakerChoice, RequirementsEnd);
  }

  lemma LastOfConcat(a: string, b: string)
    requires |b| > 0
    ensures |a + b| > 0 && (a + b)[|a + b| - 1] == b[|b| - 1]
  {
  }

  /** Stripping a padded prompt text gives it back when it neither starts nor ends with whitespace. */
  lemma StripTemplate(intro: string, x: string, heading: string, y: string, tail: string)
    requires |intro| > 0 && intro[0] !in PyWhitespace
    requires |tail| > 0 && tail[|tail| - 1] !in PyWhitespace
    ensures Trim(Pad((intro + x) + (heading + y) + tail), PyWhitespace) == (intro + x) + (heading + y) + tail
  {
    StripPadded((intro + x) + (heading + y) + tail);
  }

  const RegenerationIntro :=
    // The first word stands alone so that proofs can read the first character.
    "You" + " are updating part of an existing quest specification.\n\n"
    + Margin + "CURRENT DATA (JSON):\n" + Margin

  const RegenerationTask :=
    "\n\n" + Margin + "TASK:\n"
    + Margin + "- Regenerate ONLY the requested section of the quest (\"title\", \"summary\", or \"steps\").\n"
    + Margin + "- For \"title\" or \"summary\": keep the quest structure but update that field to be stronger and more engaging.\n"
    + Margin + "- For \"steps\": regenerate the step at the given step_index (0-based index), keeping the rest of the quest intact.\n"
    + Margin + "- Always return the FULL updated quest JSON object (not just the changed field).\n"
    + Margin + "- Ensure the JSON still follows the schema exactly."

  /** The data the regeneration prompt carries: brief, current quest, section and step index. */
  function RegenerationPayload(req: RegenerateSectionRequest): Json {
    JObject(map[
      "brief" := BriefToJson(req.brief),
      "current_quest" := QuestToJson(req.quest),
      "section" := JString(SectionToken(req.section)),
      "step_index" := OptionalIntToJson(req.stepIndex)
    ])
  }

  function RegenerationPromptBody(dumpedPayload: string, schema: string): string {
    (RegenerationIntro + dumpedPayload) + (SchemaHeading + schema) + RegenerationTask
  }

  /** `_build_regeneration_prompt(payload)`: the payload serialised and the schema description, within the fixed text. */
  function RegenerationPrompt(dumps: Dumps, req: RegenerateSectionRequest): string {
    RegenerationPromptBody(dumps(RegenerationPayload(req)), SchemaDescription())
  }

  /** The prompt is the template text stripped: stripping removes exactly its margins. */
  lemma RegenerationPromptIsStrippedTemplate(dumps: Dumps, req: RegenerateSectionRequest)
    ensures RegenerationPrompt(dumps, req) == Trim(Pad(RegenerationPrompt(dumps, req)), PyWhitespace)
  {
    RegenerationPromptStripped(dumps(RegenerationPayload(req)), SchemaDescription());
  }

  /** Whatever is substituted into it, the regeneration prompt's text loses only its margins when stripped. */
  lemma RegenerationPromptStripped(d: string, x: string)
    ensures Trim(Pad(RegenerationPromptBody(d, x)), PyWhitespace) == RegenerationPromptBody(d, x)
  {
    assert RegenerationIntro[0] == 'Y';
    assert RegenerationTask[|RegenerationTask| - 1] == '.';
    StripTemplate(RegenerationIntro, d, SchemaHeading, x, RegenerationTask);
  }

  /** In `(a + x) + (h + y) + c`, `x` occurs after `a` and `y` after `a + x + h`. */
  lemma EmbeddedParts(a: string, x: string, h: string, y: string, c: string)
    ensures OccursAt((a + x) + (h + y) + c, x, |a|)
    ensures OccursAt((a + x) + (h + y) + c, y, |a| + |x| + |h|)
  {
    var s := (a + x) + (h + y) + c;
    assert s[|a|..|a| + |x|] == x;
    assert s[|a| + |x| + |h|..|a| + |x| + |h| + |y|] == y;
  }

  /**
   * The generation prompt embeds the serialised brief and the whole schema
   * description, and states the brief's step count as both bounds.
   */
  lemma UserPromptEmbedsBriefAndSchema(dumps: Dumps, brief: QuestDesignBrief)
    ensures Contains(UserPromptFromBrief(dumps, brief), dumps(BriefToJson(brief)))
    ensures Contains(UserPromptFromBrief(dumps, brief), SchemaDescription())
    ensures Contains(UserPromptFromBrief(dumps, brief), StepBounds(brief.numberOfSteps))
  {
    BriefPromptEmbeds(dumps(BriefToJson(brief)), SchemaDescription(), brief.numberOfSteps);
  }

  lemma BriefPromptEmbeds(d: string, x: string, n: int)
    ensures Contains(BriefPromptBody(d, x, n), d)
    ensures Contains(BriefPromptBody(d, x, n), x)
    ensures Contains(BriefPromptBody(d, x, n), StepBounds(n))
  {
    TemplateEmbeds(BriefIntro, d, SchemaHeading, x, RequirementsIntro, StepBounds(n), RequirementsMiddle, SpeakerChoice, RequirementsEnd);
  }

  /**
   * In a text made of an introduction, a substitution `d`, a heading, a
   * substitution `x` and a closing text of five parts, both substitutions
   * and the second closing part occur.
   */
  lemma TemplateEmbeds(a: string, d: string, h: string, x: string, p1: string, p2: string, p3: string, p4: string, p5: string)
    ensures Contains((a + d) + (h + x) + (p1 + p2 + p3 + p4 + p5), d)
    ensures Contains((a + d) + (h + x) + (p1 + p2 + p3 + p4 + p5), x)
    ensures Contains((a + d) + (h + x) + (p1 + p2 + p3 + p4 + p5), p2)
  {
    var tail := p1 + p2 + p3 + p4 + p5;
    EmbeddedParts(a, d, h, x, tail);
    assert OccursAt(p2, p2, 0);
    OccursSuffix(p1, p2, p2, 0);
    OccursPrefix(p1 + p2, p3, p2, |p1|);
    OccursPrefix(p1 + p2 + p3, p4, p2, |p1|);
    OccursPrefix(p1 + p2 + p3 + p4, p5, p2, |p1|);
    OccursSuffix((a + d) + (h + x), tail, p2, |p1|);
  }

  /**
   * The generation prompt states the speaker rule twice: once inside the
   * schema description and once more among the additional requirements.
   */
  lemma UserPromptRepeatsSpeakerRule(dumps: Dumps, brief: QuestDesignBrief)
    ensures OccursTwice(UserPromptFromBrief(dumps, brief), SpeakerChoice)
    ensures EndsWith(UserPromptFromBrief(dumps, brief), Requirements(brief.numberOfSteps))
    ensures Contains(Requirements(brief.numberOfSteps), SpeakerChoice)
  {
    SchemaStatesSpeakerRule();
    BriefPromptRepeatsSpeakerRule(dumps(BriefToJson(brief)), SchemaDescription(), brief.numberOfSteps);
  }

  lemma BriefPromptRepeatsSpeakerRule(d: string, x: string, n: int)
    requires Contains(x, SpeakerChoice)
    ensures OccursTwice(BriefPromptBody(d, x, n), SpeakerChoice)
    ensures EndsWith(BriefPromptBody(d, x, n), Requirements(n))
    ensures Contains(Requirements(n), SpeakerChoice)
  {
    TemplateRepeats(BriefIntro, d, SchemaHeading, x, RequirementsIntro, StepBounds(n), RequirementsMiddle, SpeakerChoice, RequirementsEnd);
  }

  /**
   * A text `t` that occurs in the substituted `x` and again as the fourth
   * part of the closing text occurs twice, without overlap; the second
   * occurrence lies in the closing text, past everything substituted.
   */
  lemma TemplateRepeats(a: string, d: string, h: string, x: string, p1: string, p2: string, p3: string, t: string, p5: string)
    requires Contains(x, t)
    ensures OccursTwice((a + d) + (h + x) + (p1 + p2 + p3 + t + p5), t)
    ensures OccursAt((a + d) + (h + x) + (p1 + p2 + p3 + t + p5), t, |a + d| + |h + x| + |p1 + p2 + p3|)
    ensures EndsWith((a + d) + (h + x) + (p1 + p2 + p3 + t + p5), p1 + p2 + p3 + t + p5)
    ensures Contains(p1 + p2 + p3 + t + p5, t)
  {
    var head := (a + d) + (h + x);
    var tail := p1 + p2 + p3 + t + p5;
    var s := head + tail;
    var j :| 0 <= j <= |x| && OccursAt(x, t, j);
    EmbeddedParts(a, d, h, x, tail);
    OccursWithin(s, x, t, |a| + |d| + |h|, j);
    var before := p1 + p2 + p3;
    assert OccursAt(t, t, 0);
    OccursSuffix(before, t, t, 0);
    OccursPrefix(before + t, p5, t, |before|);
    OccursSuffix(head, tail, t, |before|);
    assert OccursAt(s, t, |a| + |d| + |h| + j) && OccursAt(s, t, |head| + |before|);
    assert s[|head|..] == tail;
    assert OccursAt(tail, t, |before|);
  }

  /** The regeneration prompt embeds the serialised payload and the whole schema description. */
  lemma RegenerationPromptEmbedsPayloadAndSchema(dumps: Dumps, req: RegenerateSectionRequest)
    ensures Contains(RegenerationPrompt(dumps, req), dumps(RegenerationPayload(req)))
    ensures Contains(RegenerationPrompt(dumps, req), SchemaDescription())
  {
    RegenerationPromptEmbeds(dumps(RegenerationPayload(req)), SchemaDescription());
  }

  lemma RegenerationPromptEmbeds(d: string, x: string)
    ensures Contains(RegenerationPromptBody(d, x), d)
    ensures Contains(RegenerationPromptBody(d, x), x)
  {
    EmbeddedParts(RegenerationIntro, d, SchemaHeading, x, RegenerationTask);
  }

  /**
   * The payload carries the whole request: its brief, quest, section and
   * step index each read back to the request's own.
   */
  lemma RegenerationPayloadCarriesRequest(req: RegenerateSectionRequest)
    requires BriefConstraints(req.brief)
    ensures var m := RegenerationPayload(req).fields;
      && ValidateBrief(m["brief"]) == Ok(req.brief)
      && ValidateQuest(m["current_quest"]) == Ok(req.quest)
      && m["section"].JString? && ParseSection(m["section"].s) == Some(req.section)
      && (m["step_index"] == JNull <==> req.stepIndex.None?)
      && (req.stepIndex.Some? ==> m["step_index"] == JInt(req.stepIndex.value))
  {
    var m := RegenerationPayload(req).fields;
    assert m["brief"] == BriefToJson(req.brief);
    BriefRoundTrip(req.brief);
    assert m["current_quest"] == QuestToJson(req.quest);
    QuestRoundTrip(req.quest);
    assert m["section"] == JString(SectionToken(req.section));
    TokensRoundTrip(Npc, Xp, req.section);
    assert m["step_index"] == OptionalIntToJson(req.stepIndex);
  }

  // ---------------------------------------------------------------------
  // generate_quest and regenerate_section
  // ---------------------------------------------------------------------

  const GenerationMismatchPrefix := "LLM returned JSON that does not match Quest schema: "
  const RegenerationMismatchPrefix := "LLM returned JSON that does not match Quest schema on regeneration: "

  /** A fresh client for the default model, then one completion with the system prompt. */
  function Completion(env: Environment, oracle: Oracle, parse: JsonParser, userPrompt: string): (r: Result<Json, Error>)
    ensures !IsSet(env, ApiKeyVariable) ==> r == Err(ValueError(MissingApiKeyMessage))
    ensures IsSet(env, ApiKeyVariable) ==>
      r == NewClient(env, DefaultModel).value.CompleteJson(oracle, parse, SystemPrompt(), userPrompt)
  {
    var client :- NewClient(env, DefaultModel);
    client.CompleteJson(oracle, parse, SystemPrompt(), userPrompt)
  }

  /** The chat request a configured environment sends for a user prompt. */
  function ChatRequestFor(env: Environment, userPrompt: string): ChatRequest
    requires IsSet(env, ApiKeyVariable)
  {
    NewClient(env, DefaultModel).value.Request(SystemPrompt(), userPrompt)
  }

  /** Completion, then validation as a Quest; a validation failure is reported with `prefix`. */
  function CompleteQuest(env: Environment, oracle: Oracle, parse: JsonParser, userPrompt: string, prefix: string): (r: Result<Quest, Error>)
    ensures var c := Completion(env, oracle, parse, userPrompt);
      && (c.Err? ==> r == Err(c.error))
      && (c.Ok? ==> (r.Ok? <==> IsQuestJson(c.value)))
      && (c.Ok? && r.Ok? ==> ValidateQuest(c.value) == Ok(r.value))
      && (c.Ok? && r.Err? ==> r.error == ValueError(prefix + Describe(ValidateQuest(c.value).error)))
      && (c.Ok? && r.Err? ==> StartsWith(r.error.message, prefix))
  {
    var value :- Completion(env, oracle, parse, userPrompt);
    match ValidateQuest(value)
    case Ok(quest) => Ok(quest)
    case Err(e) =>
      var message := prefix + Describe(e);
      assert message[..|prefix|] == prefix;
      Err(ValueError(message))
  }

  /**
   * `generate_quest(brief)`: configuration and completion errors pass
   * through; the parsed reply becomes a Quest exactly when it meets the
   * schema, and otherwise the error names the schema mismatch.
   */
  function GenerateQuest(env: Environment, oracle: Oracle, parse: JsonParser, dumps: Dumps, brief: QuestDesignBrief): (r: Result<Quest, Error>)
    ensures !IsSet(env, ApiKeyVariable) ==> r == Err(ValueError(MissingApiKeyMessage))
    ensures var c := Completion(env, oracle, parse, UserPromptFromBrief(dumps, brief));
      && (c.Err? ==> r == Err(c.error))
      && (c.Ok? ==> (r.Ok? <==> IsQuestJson(c.value)))
      && (c.Ok? && r.Ok? ==> ValidateQuest(c.value) == Ok(r.value))
      && (c.Ok? && r.Err? ==> r.error.ValueError? && StartsWith(r.error.message, GenerationMismatchPrefix))
  {
    CompleteQuest(env, oracle, parse, UserPromptFromBrief(dumps, brief), GenerationMismatchPrefix)
  }

  /**
   * `regenerate_section(payload)`: the same steps as generation with the
   * regeneration prompt; a schema mismatch is reported "on regeneration".
   */
  function RegenerateSection(env: Environment, oracle: Oracle, parse: JsonParser, dumps: Dumps, req: RegenerateSectionRequest): (r: Result<Quest, Error>)
    ensures !IsSet(env, ApiKeyVariable) ==> r == Err(ValueError(MissingApiKeyMessage))
    ensures var c := Completion(env, oracle, parse, RegenerationPrompt(dumps, req));
      && (c.Err? ==> r == Err(c.error))
      && (c.Ok? ==> (r.Ok? <==> IsQuestJson(c.value)))
      && (c.Ok? && r.Ok? ==> ValidateQuest(c.value) == Ok(r.value))
      && (c.Ok? && r.Err? ==> r.error.ValueError? && StartsWith(r.error.message, RegenerationMismatchPrefix))
  {
    CompleteQuest(env, oracle, parse, RegenerationPrompt(dumps, req), RegenerationMismatchPrefix)
  }

  /** A generation failure and a regeneration failure never carry the same message. */
  lemma MismatchMessagesDistinct(x: string, y: string)
    ensures GenerationMismatchPrefix + x != RegenerationMismatchPrefix + y
  {
    var k := |"LLM returned JSON that does not match Quest schema"|;
    assert (GenerationMismatchPrefix + x)[k] == ':';
    assert (RegenerationMismatchPrefix + y)[k] == ' ';
  }

  /**
   * End to end: when the model answers with a quest's JSON inside a
   * "```json" fence, and the parser reads that JSON back, generation
   * returns exactly that quest.
   */
  lemma GenerateQuestFromFencedReply(env: Environment, oracle: Oracle, parse: JsonParser, dumps: Dumps, brief: QuestDesignBrief, q: Quest, text: string)
    requires IsSet(env, ApiKeyVariable)
    requires IsTrimmed(text, PyWhitespace) && NoBacktickEnds(text)
    requires oracle(ChatRequestFor(env, UserPromptFromBrief(dumps, brief))) == Ok("```json\n" + text + "\n```")
    requires parse(text) == Ok(QuestToJson(q))
    ensures GenerateQuest(env, oracle, parse, dumps, brief) == Ok(q)
  {
    FencedAndBareAgree(text);
    QuestRoundTrip(q);
  }

  /**
   * Regeneration accepts any quest that meets the schema: nothing checks
   * that the sections other than the requested one are kept.
   */
  lemma RegenerateSectionAcceptsAnyQuest(env: Environment, oracle: Oracle, parse: JsonParser, dumps: Dumps, req: RegenerateSectionRequest, q: Quest, text: string)
    requires IsSet(env, ApiKeyVariable)
    requires IsTrimmed(text, PyWhitespace) && NoBacktickEnds(text)
    requires oracle(ChatRequestFor(env, RegenerationPrompt(dumps, req))) == Ok(text)
    requires parse(text) == Ok(QuestToJson(q))
    ensures RegenerateSection(env, oracle, parse, dumps, req) == Ok(q)
  {
    FencedAndBareAgree(text);
    QuestRoundTrip(q);
  }

  /** A reply whose dialogue uses a character name as speaker fails generation with the schema-mismatch error. */
  lemma GenerateQuestRejectsNamedSpeaker(env: Environment, oracle: Oracle, parse: JsonParser, dumps: Dumps, brief: QuestDesignBrief, j: Json, i: nat, k: nat)
    requires Completion(env, oracle, parse, UserPromptFromBrief(dumps, brief)) == Ok(j)
    requires j.JObject? && HasArray(j.fields, StepsKey) && i < |j.fields[StepsKey].items|
    requires var step := j.fields[StepsKey].items[i];
      step.JObject? && HasArray(step.fields, DialogueKey) && k < |step.fields[DialogueKey].items|
    requires var line := j.fields[StepsKey].items[i].fields[DialogueKey].items[k];
      line.JObject? && HasString(line.fields, SpeakerKey) && line.fields[SpeakerKey].s !in SpeakerTokens
    ensures var r := GenerateQuest(env, oracle, parse, dumps, brief);
      r.Err? && r.error.ValueError? && StartsWith(r.error.message, GenerationMismatchPrefix)
  {
    QuestWithNamedSpeakerRejected(j, i, k);
  }
}
