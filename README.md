# Quest Narrative Designer — a Dafny model of its core

The Quest Narrative Designer turns a quest design brief (zone, faction, tone,
level range, step count and optional notes) into a structured quest by asking
a chat-completion model for JSON. It also lets a designer regenerate one
section of a generated quest: the title, the summary or one step. This project
models the core of that service and of its browser page, and proves what they
promise:

- `models.dfy` (module `Models`): the brief, quest and regeneration-request
  records, and the validator that turns JSON into them. The validator accepts
  exactly the JSON that meets the declared types, bounds and enumerations. The
  records' dumps read back to the records they came from.
- `llm_client.dfy` (module `LlmClient`): how the client is configured from the
  environment. An API key is mandatory and the model name may come from the
  environment. Also the post-processing of a reply: trim, strip a Markdown
  fence and its `json` tag, trim again, parse, and report a parse failure with
  the text that failed.
- `quest_generator.dfy` (module `QuestGenerator`): the system prompt, the
  schema description, and the two prompt builders. It also covers the
  `generate_quest` and `regenerate_section` pipelines: configure, complete,
  validate as a Quest, and report a schema mismatch with its own message.
- `app.dfy` (module `App`): the page's `formToBrief` and the rewards line of a
  rendered quest. Also the step-index default of the "regenerate step" button,
  and the page state (`currentBrief`, `currentQuest`, status line) as a class
  whose handlers update it.
- `text.dfy`, `json.dfy`, `wrappers.dfy`: trimming against a whitespace set,
  splitting and joining, substring containment, the JSON value type, and
  `Option`/`Result`.

The chat-completion service, `json.loads`, `json.dumps`, JavaScript's
`parseInt` and the server endpoint the page posts to are function parameters.
Every property below holds for all of them. The environment is a map from
variable names to values.

The code behaves as follows where a reader might expect otherwise, and the
model does the same:

- `step_index` is not checked against the quest's steps, not even for the
  "steps" section.
- A reply that cannot be parsed raises a `ValueError`.
- A fresh client, and so a fresh reading of the environment, is made on every
  generation.
- A quest's step count is not checked against the brief's `number_of_steps`.

## Model

| member | source | states |
|---|---|---|
| Models.ParseSpeaker | quest-narrative-designer/quest-narrative-designer/app/models.py:29 | a speaker is read exactly when the text is "NPC" or "PLAYER", and its token is that text |
| Models.ParseRewardType | quest-narrative-designer/quest-narrative-designer/app/models.py:41 | a reward type is read exactly when the text is one of the five tokens, and its token is that text |
| Models.ParseSection | quest-narrative-designer/quest-narrative-designer/app/models.py:61 | a section is read exactly when the text is "title", "summary" or "steps", and its token is that text |
| Models.TokensRoundTrip | quest-narrative-designer/quest-narrative-designer/app/models.py:29-61 | every speaker, reward type and section reads back from its own token |
| Models.ValidateEach | quest-narrative-designer/quest-narrative-designer/app/models.py:54-55 | a list validates exactly when each element does, elementwise; a rejection is some element's rejection |
| Models.ValidateBrief | quest-narrative-designer/quest-narrative-designer/app/models.py:5-25 | accepts exactly: zone, faction, tone strings; both levels integers of at least 1; optional style string; steps (4 when absent) an integer from 3 to 8; optional playtime integer; optional string list. Each field of the result is the input's value for its key (style and playtime missing exactly when absent or null, forbidden elements as that list reads), and the result meets the brief constraints |
| Models.ValidateForbidden | quest-narrative-designer/quest-narrative-designer/app/models.py:20-25 | absent or null reads as no list; an array of strings reads as those strings in order; anything else is rejected |
| Models.BriefRoundTrip | quest-narrative-designer/quest-narrative-designer/app/models.py:5-25 | a brief meeting its constraints is given back by validating its dump (`BriefToJson`, every field present, none as null) |
| Models.ForbiddenRoundTrip | quest-narrative-designer/quest-narrative-designer/app/models.py:20-25 | the forbidden-elements field of a dump reads back as the brief's list, or as none |
| Models.InvertedLevelRangeAccepted | quest-narrative-designer/quest-narrative-designer/app/models.py:9-10 | a brief whose minimum level exceeds its maximum is still valid: the range's order is not checked |
| Models.ValidateDialogueLine | quest-narrative-designer/quest-narrative-designer/app/models.py:28-30 | accepts exactly an object with a speaker token and a text string; the speaker read has that token and the text is the input's |
| Models.ValidateStep | quest-narrative-designer/quest-narrative-designer/app/models.py:33-37 | accepts exactly an object with an integer step number, description and objective strings, and a list of valid dialogue lines; number, description and objective are the input's, and line i is what line i of the input validates to |
| Models.ValidateReward | quest-narrative-designer/quest-narrative-designer/app/models.py:40-43 | accepts exactly an object with a type token, a description string and an absent, null or integer amount; type and description are the input's; the amount is missing exactly when absent or null, and otherwise is the input's integer |
| Models.ValidateQuest | quest-narrative-designer/quest-narrative-designer/app/models.py:46-55 | accepts exactly an object with the nine fields of their types whose steps and rewards all validate; each field of the quest is read from its key, steps and rewards in order |
| Models.DialogueLineRoundTrip | quest-narrative-designer/quest-narrative-designer/app/models.py:28-30 | every dialogue line reads back from its dump |
| Models.StepRoundTrip | quest-narrative-designer/quest-narrative-designer/app/models.py:33-37 | every step reads back from its dump |
| Models.RewardRoundTrip | quest-narrative-designer/quest-narrative-designer/app/models.py:40-43 | every reward reads back from its dump |
| Models.QuestRoundTrip | quest-narrative-designer/quest-narrative-designer/app/models.py:46-55 | every quest reads back from its dump (`QuestToJson`), whatever its number of steps and step numbers |
| Models.QuestMissingFieldRejected | quest-narrative-designer/quest-narrative-designer/app/models.py:46-55 | an object lacking any of the nine quest fields is rejected |
| Models.QuestWithNamedSpeakerRejected | quest-narrative-designer/quest-narrative-designer/app/models.py:29 | one dialogue line whose speaker is not a token (a character name) rejects the whole quest |
| Models.ValidateRegenerateRequest | quest-narrative-designer/quest-narrative-designer/app/models.py:58-65 | accepts exactly a valid brief, a valid quest, a section token and an absent, null or integer step index; each part is read from its key |
| Models.RegenerateRequestRoundTrip | quest-narrative-designer/quest-narrative-designer/app/models.py:58-65 | a request whose brief meets its constraints reads back from its dump, whatever its step index |
| LlmClient.NewClient | quest-narrative-designer/quest-narrative-designer/app/llm_client.py:18-25 | fails with the missing-key error exactly when OPENAI_API_KEY is unset or empty; otherwise carries that key, and OPENAI_MODEL when set, else the model argument |
| LlmClient.LLMClient.CompleteJson | quest-narrative-designer/quest-narrative-designer/app/llm_client.py:27-49 | a transport failure passes through; otherwise the result is the parse of the normalised reply, and a parse failure becomes a ValueError naming the normalised text |
| LlmClient.ParseFailureMessage | quest-narrative-designer/quest-narrative-designer/app/llm_client.py:48-49 | the message is the fixed prefix, then the decoder's message at the position right after it, then "Raw: " and the text that failed, with nothing else: its length is the sum of the four parts |
| LlmClient.NormaliseResponse | quest-narrative-designer/quest-narrative-designer/app/llm_client.py:39-45 | the result has no surrounding whitespace; a reply that does not open with a fence is only trimmed |
| LlmClient.Untag | quest-narrative-designer/quest-narrative-designer/app/llm_client.py:43-44 | a leading "json" is removed once, and nothing else changes |
| LlmClient.NormaliseIgnoresOuterWhitespace | quest-narrative-designer/quest-narrative-designer/app/llm_client.py:40-45 | for every reply, whitespace around it never changes what reaches the parser: normalising the reply and normalising it stripped agree |
| LlmClient.PaddedFenceGivesPayload | quest-narrative-designer/quest-narrative-designer/app/llm_client.py:40-45 | a "```json" fenced payload with any whitespace before or after the fence, such as a trailing newline, reaches the parser as the payload |
| LlmClient.NormaliseFenced | quest-narrative-designer/quest-narrative-designer/app/llm_client.py:41-45 | a body between three or more opening and any closing backticks comes out untagged and trimmed |
| LlmClient.UnfencedUnchanged | quest-narrative-designer/quest-narrative-designer/app/llm_client.py:40-41 | trimmed text that does not start with a backtick is passed to the parser unchanged |
| LlmClient.JsonFenceShape | quest-narrative-designer/quest-narrative-designer/app/llm_client.py:41-45 | a "```json" block is reduced to its untagged, trimmed body |
| LlmClient.JsonTagOfNewlineBody | quest-narrative-designer/quest-narrative-designer/app/llm_client.py:43-44 | the tag of a "json" line is removed, keeping the line breaks for the final trim |
| LlmClient.FencedAndBareAgree | quest-narrative-designer/quest-narrative-designer/app/llm_client.py:40-45 | a JSON text parses the same whether the model fences it with a json tag or sends it bare |
| LlmClient.AllBackticksStripped | quest-narrative-designer/quest-narrative-designer/app/llm_client.py:42 | any number of outer backticks, three or more in front, is stripped from an untagged body |
| LlmClient.ThreeBacktickFence | quest-narrative-designer/quest-narrative-designer/app/llm_client.py:41-45 | a body between plain three-backtick fences comes out untagged and trimmed |
| LlmClient.JsonTagRemovedOnce | quest-narrative-designer/quest-narrative-designer/app/llm_client.py:43-44 | a doubled tag "jsonjson" leaves one "json" in front of the parsed text |
| LlmClient.JsonTagKeptAfterSpace | quest-narrative-designer/quest-narrative-designer/app/llm_client.py:41-45 | a tag after a space is not removed: "``` json…```" gives "json…" to the parser |
| QuestGenerator.SystemPromptIsStrippedText | quest-narrative-designer/quest-narrative-designer/app/quest_generator.py:9-20 | stripping the system prompt's source text removes exactly its opening and closing line breaks |
| QuestGenerator.SystemPrompt | quest-narrative-designer/quest-narrative-designer/app/quest_generator.py:9-20 | the system prompt neither starts nor ends with whitespace, as stripping leaves it |
| QuestGenerator.SystemPromptDemandsJson | quest-narrative-designer/quest-narrative-designer/app/quest_generator.py:16-18 | the system prompt asks for "STRICT JSON" and says "Only output JSON." |
| QuestGenerator.SchemaDescriptionIsStrippedText | quest-narrative-designer/quest-narrative-designer/app/quest_generator.py:23-66 | stripping the schema description's source text removes exactly its opening and closing line breaks |
| QuestGenerator.SchemaDescription | quest-narrative-designer/quest-narrative-designer/app/quest_generator.py:23-66 | the schema description neither starts nor ends with whitespace, as stripping leaves it |
| QuestGenerator.SchemaMentionsQuestKey | quest-narrative-designer/quest-narrative-designer/app/quest_generator.py:29-51 | the schema description has a line naming the given quest field, in quotes |
| QuestGenerator.SchemaMentionsQuestKeys | quest-narrative-designer/quest-narrative-designer/app/quest_generator.py:29-51 | the schema description names all nine fields the validator requires of a quest |
| QuestGenerator.SchemaStatesSpeakerRule | quest-narrative-designer/quest-narrative-designer/app/quest_generator.py:43 | the schema description restricts the speaker to "NPC" or "PLAYER", the validator's two tokens |
| QuestGenerator.SchemaListsRewardTypes | quest-narrative-designer/quest-narrative-designer/app/quest_generator.py:53 | the schema description names each of the validator's five reward types |
| QuestGenerator.UserPromptIsStrippedTemplate | quest-narrative-designer/quest-narrative-designer/app/quest_generator.py:69-91 | the generation prompt (`UserPromptFromBrief`) is its template text with the margins stripped, and nothing else removed |
| QuestGenerator.UserPromptEmbedsBriefAndSchema | quest-narrative-designer/quest-narrative-designer/app/quest_generator.py:77-86 | the generation prompt (`UserPromptFromBrief`) contains the dumped brief, the schema description and the step bound with the brief's own step count |
| QuestGenerator.UserPromptRepeatsSpeakerRule | quest-narrative-designer/quest-narrative-designer/app/quest_generator.py:81-89 | the speaker rule appears twice in the generation prompt, without overlap; the prompt ends with the requirements text, and the requirements themselves state the rule, so one occurrence lies past the brief and the schema |
| QuestGenerator.RegenerationPromptIsStrippedTemplate | quest-narrative-designer/quest-narrative-designer/app/quest_generator.py:106-131 | the regeneration prompt (`RegenerationPrompt`) is its template text with the margins stripped |
| QuestGenerator.RegenerationPromptEmbedsPayloadAndSchema | quest-narrative-designer/quest-narrative-designer/app/quest_generator.py:114-122 | the regeneration prompt (`RegenerationPrompt`) contains the dumped payload (`RegenerationPayload`) and the schema description |
| QuestGenerator.RegenerationPayloadCarriesRequest | quest-narrative-designer/quest-narrative-designer/app/quest_generator.py:108-113 | the payload (`RegenerationPayload`) holds the request's brief, current quest, section and step index, each reading back as the request's own; a missing step index is null |
| QuestGenerator.Completion | quest-narrative-designer/quest-narrative-designer/app/quest_generator.py:95-98 | without an API key the missing-key error; otherwise one completion of the system prompt and the given prompt on a default-model client |
| QuestGenerator.CompleteQuest | quest-narrative-designer/quest-narrative-designer/app/quest_generator.py:98-103 | completion errors pass through; the value becomes a quest exactly when it meets the schema; a mismatch is a ValueError made of the prefix and the validation error |
| QuestGenerator.GenerateQuest | quest-narrative-designer/quest-narrative-designer/app/quest_generator.py:94-103 | configuration and completion errors pass through; the result is the parsed reply validated as a Quest, and a mismatch names the generation prefix |
| QuestGenerator.RegenerateSection | quest-narrative-designer/quest-narrative-designer/app/quest_generator.py:134-145 | as generation, with the regeneration prompt and the regeneration prefix |
| QuestGenerator.MismatchMessagesDistinct | quest-narrative-designer/quest-narrative-designer/app/quest_generator.py:142-144 | a generation mismatch message is never a regeneration mismatch message |
| QuestGenerator.GenerateQuestFromFencedReply | quest-narrative-designer/quest-narrative-designer/app/quest_generator.py:94-103 | a reply fencing the dump of a quest in a json block generates exactly that quest |
| QuestGenerator.RegenerateSectionAcceptsAnyQuest | quest-narrative-designer/quest-narrative-designer/app/quest_generator.py:134-145 | regeneration returns whatever quest the model sends, even with other sections changed |
| QuestGenerator.GenerateQuestRejectsNamedSpeaker | quest-narrative-designer/quest-narrative-designer/app/quest_generator.py:99-102 | a reply with a named speaker anywhere fails generation with the mismatch message |
| App.NumberToJson | quest-narrative-designer/quest-narrative-designer/static/app.js:136 | a number is sent as itself and NaN as null |
| App.OptionalNumberToJson | quest-narrative-designer/quest-narrative-designer/static/app.js:168 | null or NaN is sent as null, a number as itself |
| App.JsTrim | quest-narrative-designer/quest-narrative-designer/static/app.js:22-24 | the result has no JavaScript whitespace at either end |
| App.DropEmpty | quest-narrative-designer/quest-narrative-designer/static/app.js:49 | only non-empty pieces are kept, each one of the input's; every non-empty piece of the input is kept; a list without empty pieces is kept whole |
| App.DropEmptyConcat | quest-narrative-designer/quest-narrative-designer/static/app.js:49 | the filter keeps order: filtering a concatenation gives the filtered parts concatenated |
| App.DropEmptySingle | quest-narrative-designer/quest-narrative-designer/static/app.js:49 | a single piece is kept exactly when it is non-empty |
| App.ForbiddenElements | quest-narrative-designer/quest-narrative-designer/static/app.js:42-50 | null exactly when the trimmed input is empty; otherwise non-empty, trimmed, comma-free entries |
| App.ForbiddenElementsOfPieces | quest-narrative-designer/quest-narrative-designer/static/app.js:42-50 | a field whose comma-separated pieces trim to a list reads as that list's non-empty pieces in order, and as null exactly when that list is one empty piece |
| App.ForbiddenElementsOfPaddedEntries | quest-narrative-designer/quest-narrative-designer/static/app.js:42-50 | a field made of comma-separated entries with whitespace around them reads as exactly the non-empty entries, in order; it reads as null only when it held nothing but whitespace |
| App.ForbiddenElementsExample | quest-narrative-designer/quest-narrative-designer/static/app.js:42-50 | " time travel, , dragons " reads as the two entries "time travel" and "dragons" |
| Text.SplitOfTrimmed | quest-narrative-designer/quest-narrative-designer/static/app.js:43-48 | trimming the field before splitting it on commas leaves every trimmed piece unchanged |
| App.ForbiddenElementsRoundTrip | quest-narrative-designer/quest-narrative-designer/static/app.js:42-50 | joining clean entries with commas and reading them back gives the same list |
| App.OnlyCommasGiveEmptyList | quest-narrative-designer/quest-narrative-designer/static/app.js:42-50 | an input of commas alone gives an empty list, not null |
| App.StepsOrFour | quest-narrative-designer/quest-narrative-designer/static/app.js:35-36 | a parsed step count other than 0 and NaN is kept; otherwise 4 |
| App.FormToBrief | quest-narrative-designer/quest-narrative-designer/static/app.js:21-63 | zone, faction and tone are the inputs trimmed; the levels are the inputs' parseInt; style is null exactly when it trims to empty, else trimmed; steps by the default rule; playtime null exactly when its input is empty, else its parseInt; forbidden elements as read |
| App.ServerBrief | quest-narrative-designer/quest-narrative-designer/app/models.py:5-25 | the brief the server reads from a posted one meets the brief constraints when the posted one is acceptable |
| App.ClientBriefIsDumpOfServerBrief | quest-narrative-designer/quest-narrative-designer/static/app.js:52-62 | a posted brief (`ClientBriefToJson`) with numeric levels is the dump of the brief the server reads from it |
| App.ServerAcceptsBriefIff | quest-narrative-designer/quest-narrative-designer/app/models.py:9-16 | the server accepts a posted brief exactly when both levels are numbers of at least 1 and steps are 3 to 8, and then reads it unchanged |
| App.AmountSuffix | quest-narrative-designer/quest-narrative-designer/static/app.js:110 | the amount suffix is empty exactly when the amount is missing or 0, and otherwise is " (", the amount in decimal, ")" |
| App.RewardLabel | quest-narrative-designer/quest-narrative-designer/static/app.js:108-111 | a reward shows as its upper-cased type, ": ", its description, then the amount suffix, with nothing in between |
| App.RewardsLine | quest-narrative-designer/quest-narrative-designer/static/app.js:105-115 | the rewards line is shown exactly when the quest has rewards |
| App.RewardsLineAdjacent | quest-narrative-designer/quest-narrative-designer/static/app.js:106-113 | each reward's label is followed by " | " and the next reward's label, so labels appear in the rewards' order |
| App.RewardsLineEnds | quest-narrative-designer/quest-narrative-designer/static/app.js:106-113 | the line opens with the first reward's label and closes with the last one's |
| App.RewardsLineShowsEachReward | quest-narrative-designer/quest-narrative-designer/static/app.js:106-113 | every reward's label appears in the rewards line |
| App.ZeroAmountRendersAsMissing | quest-narrative-designer/quest-narrative-designer/static/app.js:110 | an amount of 0 is shown exactly as a missing amount |
| App.RewardTypeShownUppercase | quest-narrative-designer/quest-narrative-designer/static/app.js:109 | the five types show as XP, GOLD, ITEM, COSMETIC and OTHER |
| App.DescriptionCanImitateAmount | quest-narrative-designer/quest-narrative-designer/static/app.js:109-111 | "coins (5)" with no amount shows the same as "coins" with amount 5 |
| App.FailureMessage | quest-narrative-designer/quest-narrative-designer/static/app.js:139-144 | a non-empty error detail is the message; otherwise exactly "Request failed with status " followed by the status; a request that never completed keeps its own message |
| App.ServerAcceptsRegeneratePayload | quest-narrative-designer/quest-narrative-designer/static/app.js:164-169 | the server reads the page's regeneration payload (`RegeneratePayload`) as exactly its brief, quest, section and index; a NaN index arrives as none |
| App.StepIndexFromInput | quest-narrative-designer/quest-narrative-designer/static/app.js:205-206 | an empty input gives index 0; otherwise the parsed input |
| App.EmptyStepInputTargetsFirstStep | quest-narrative-designer/quest-narrative-designer/static/app.js:204-208 | with the index input empty, the server reads a "steps" request for step 0 |
| App.Session.constructor | quest-narrative-designer/quest-narrative-designer/static/app.js:1-2 | the page starts with no brief and no quest |
| App.Session.GenerateQuest | quest-narrative-designer/quest-narrative-designer/static/app.js:122-154 | the brief read from the form is stored and posted; a delivered quest becomes current with the success status; on failure there is no quest and the status is the error |
| App.Session.SubmitBrief | quest-narrative-designer/quest-narrative-designer/static/app.js:125-153 | the brief is stored and the quest cleared before posting; the reply decides the quest and the status |
| App.Session.Regenerate | quest-narrative-designer/quest-narrative-designer/static/app.js:156-195 | without a quest and a brief nothing is posted and the status says so; otherwise the payload of both is posted; a delivered quest replaces the current one; a failure keeps it; the brief never changes; since a quest is only held with a brief (`Valid`), nothing is posted exactly when there is no quest |
| App.Session.RegenerateStep | quest-narrative-designer/quest-narrative-designer/static/app.js:204-208 | with no quest or brief nothing is posted and the status says so; otherwise the "steps" payload carries the index from the input, 0 when it is empty; a delivered quest replaces the current one with "Successfully regenerated steps.", a failure keeps it and shows the error; nothing is posted exactly when there is no quest |
| Text.Split | quest-narrative-designer/quest-narrative-designer/static/app.js:47 | the pieces contain no separator and joined back give the input |
| Text.SplitJoin | quest-narrative-designer/quest-narrative-designer/static/app.js:47 | splitting a join of separator-free pieces gives the pieces back |
| Text.TrimPadded | quest-narrative-designer/quest-narrative-designer/app/llm_client.py:40 | trimming removes whitespace padding around a trimmed core, and only that |

## Left out

- The network: the chat-completion service, the page's `fetch` and the server endpoint are parameters. So are `json.loads`, `json.dumps` and JavaScript's `parseInt`. Their own behaviour is not modelled.
- The sampling temperature (a floating-point constant sent with each request) is not part of the modelled request.
- A reply whose `content` is null is not modelled; the reply text is always a string.
- Validation is strict, with no lax coercion (the validator does not turn "5" into 5). It reports the first error found, not all of them. Error texts follow the validator's wording only in outline.
- `dedent` is not modelled as a function. The constant texts are written already dedented. In the two prompts the substituted text has lines at column 0, so `dedent` removes no margin and only stripping applies; those prompts keep their source indentation.
- JSON numbers are integers only; there is no floating-point case. So the model cannot say that the validator rejects `12.5` for an integer field, nor that it reads `100.0` as 100. A reply or a brief carrying such a number is outside the model.
- JSON key order and the exact layout `json.dumps` produces are not modelled; a JSON object is a map.
- Python's and JavaScript's whitespace sets are written out as character sets. Case mapping covers ASCII letters only, which are the only ones the reward types use.
- The page's asynchronous interleaving is not modelled: each handler runs to completion on the reply it receives.
- Rendering to the DOM is left out except for the rewards line. So are the transient "Generating quest..." and "Regenerating …" status texts, which the final status always overwrites.
- A non-string `detail` in an error body is not modelled: `detail` is text or absent.
- The HTTP routes in main.py are not part of this model; the server endpoint is the `Server` parameter.
- App.AmountSuffix: the amount is an exact integer. JavaScript numbers are doubles, so the page prints an amount from 1e21 up in exponent form ("1e+21"), and `resp.json()` has already rounded any amount above 2^53.
- App.ServerAcceptsRegeneratePayload: the quest posted back is the one received, with exact integers. The page itself holds the quest's numbers as doubles, so a step number or amount above 2^53 is posted back rounded.
- App.Session.GenerateQuest: the status set before posting is not stated, because it is always replaced by the outcome's status.
