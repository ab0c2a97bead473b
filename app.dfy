/**
 * The browser client: reading the design-brief form into the object it
 * posts, formatting the rewards line of a rendered quest, and the two
 * pieces of page state (`currentBrief`, `currentQuest`) that generating a
 * quest and regenerating one of its sections update.
 *
 * `parseInt(s, 10)` is the `ParseInt` parameter; the server endpoint a
 * request is posted to is the `Server` parameter, which answers a posted
 * JSON body with the reply as the page sees it. `JSON.stringify` is written
 * out as the JSON value it produces. Each handler runs to completion on the
 * reply it receives.
 */
module App {
  import opened Wrappers
  import opened Json
  import opened Text
  import opened Models

  // ---------------------------------------------------------------------
  // Numbers as the page reads them
  // ---------------------------------------------------------------------

  /** A JavaScript number produced by `parseInt`: an integer, or NaN. */
  datatype JsNumber = Num(value: int) | NaN

  /** `parseInt(s, 10)`. */
  type ParseInt = string -> JsNumber

  /** JavaScript truthiness of a number: NaN and 0 are falsy. */
  predicate Truthy(n: JsNumber) {
    n.Num? && n.value != 0
  }

  /** `JSON.stringify` of a number: NaN becomes null. */
  function NumberToJson(n: JsNumber): (r: Json)
    ensures r.JNull? <==> n.NaN?
    ensures n.Num? ==> r == JInt(n.value)
  {
    match n
    case Num(k) => JInt(k)
    case NaN => JNull
  }

  /** `JSON.stringify` of a number or null. */
  function OptionalNumberToJson(o: Option<JsNumber>): (r: Json)
    ensures r.JNull? <==> o.None? || o.value.NaN?
    ensures o.Some? && o.value.Num? ==> r == JInt(o.value.value)
  {
    match o
    case None => JNull
    case Some(n) => NumberToJson(n)
  }

  /** The integer the server reads from a number or null that the page posts: NaN arrives as null. */
  function IntSent(o: Option<JsNumber>): Option<int> {
    match o
    case Some(Num(k)) => Some(k)
    case _ => None
  }

  // ---------------------------------------------------------------------
  // formToBrief
  // ---------------------------------------------------------------------

  /** The raw `value` of each input of the brief form. */
  datatype BriefForm = BriefForm(
    zone: string,
    faction: string,
    tone: string,
    levelMin: string,
    levelMax: string,
    style: string,
    steps: string,
    playtime: string,
    forbidden: string)

  /** The object `formToBrief` returns; `None` is `null`. */
  datatype ClientBrief = ClientBrief(
    zone: string,
    faction: string,
    tone: string,
    playerLevelMin: JsNumber,
    playerLevelMax: JsNumber,
    narrativeStyle: Option<string>,
    numberOfSteps: int,
    targetPlaytimeMinutes: Option<JsNumber>,
    forbiddenElements: Option<seq<string>>)

  /** `s.trim()`. */
  function JsTrim(s: string): (r: string)
    ensures IsTrimmed(r, JsWhitespace)
  {
    Trim(s, JsWhitespace)
  }

  /** `.filter((s) => s.length > 0)`. */
  function DropEmpty(xs: seq<string>): (r: seq<string>)
    ensures forall y :: y in r ==> y != [] && y in xs
    ensures forall i :: 0 <= i < |xs| && xs[i] != [] ==> xs[i] in r
    ensures |r| <= |xs|
    ensures (forall i :: 0 <= i < |xs| ==> xs[i] != []) ==> r == xs
    decreases |xs|
  {
    if xs == [] then []
    else if xs[0] == [] then DropEmpty(xs[1..])
    else [xs[0]] + DropEmpty(xs[1..])
  }

  /** The filter keeps order: filtering a concatenation concatenates the filtered parts. */
  lemma {:induction false} DropEmptyConcat(xs: seq<string>, ys: seq<string>)
    ensures DropEmpty(xs + ys) == DropEmpty(xs) + DropEmpty(ys)
    decreases |xs|
  {
    if xs == [] {
      assert xs + ys == ys;
    } else {
      assert (xs + ys)[0] == xs[0];
      assert (xs + ys)[1..] == xs[1..] + ys;
      DropEmptyConcat(xs[1..], ys);
    }
  }

  /** A single piece is kept exactly when it is not empty. */
  lemma DropEmptySingle(x: string)
    ensures DropEmpty([x]) == if x == [] then [] else [x]
  {
    assert [x][1..] == [];
  }

  /**
   * The `forbidden_elements` rule: null when the trimmed field is empty,
   * otherwise its comma-separated pieces, each trimmed, empty ones dropped.
   * Every element kept is non-empty, has no surrounding whitespace and holds
   * no comma.
   */
  function ForbiddenElements(raw: string): (r: Option<seq<string>>)
    ensures r.None? <==> JsTrim(raw) == []
    ensures r.Some? ==> forall y :: y in r.value ==>
      y != [] && IsTrimmed(y, JsWhitespace) && ',' !in y
  {
    var trimmed := JsTrim(raw);
    if |trimmed| == 0 then None
    else
      var pieces := Split(trimmed, ',');
      var kept := DropEmpty(MapSeq(pieces, JsTrim));
      assert forall y :: y in kept ==> ',' !in y by {
        forall y | y in kept
          ensures ',' !in y
        {
          var j :| 0 <= j < |pieces| && MapSeq(pieces, JsTrim)[j] == y;
          TrimKeepsAbsent(pieces[j], JsWhitespace, ',');
        }
      }
      Some(kept)
  }

  /** Pieces with padding around them: `pre[i] + xs[i] + post[i]`. */
  function Padded(pre: seq<string>, xs: seq<string>, post: seq<string>): (r: seq<string>)
    requires |pre| == |xs| == |post|
    ensures |r| == |xs| && forall i :: 0 <= i < |xs| ==> r[i] == pre[i] + xs[i] + post[i]
  {
    seq(|xs|, i requires 0 <= i < |xs| => pre[i] + xs[i] + post[i])
  }

  /**
   * Trimming the whole field before splitting it changes no trimmed piece:
   * the whitespace it removes lies in the first and last pieces, which are
   * trimmed anyway.
   */
  lemma SplitTrimmedPieces(s: string)
    ensures MapSeq(Split(JsTrim(s), ','), JsTrim) == MapSeq(Split(s, ','), JsTrim)
  {
    assert ',' !in JsWhitespace;
    SplitOfTrimmed(s, ',', JsWhitespace);
  }

  /** When the trimmed field is empty, its only piece is empty. */
  lemma EmptyFieldPieces(s: string)
    ensures JsTrim(s) == [] ==> MapSeq(Split(JsTrim(s), ','), JsTrim) == [[]]
  {
    if JsTrim(s) == [] {
      assert Split([], ',') == [[]];
    }
  }

  /**
   * A field whose comma-separated pieces trim to `xs` reads as the non-empty
   * ones, in order; it reads as null exactly when its one piece trims to empty.
   */
  lemma ForbiddenElementsOfPieces(raw: string, xs: seq<string>)
    requires MapSeq(Split(raw, ','), JsTrim) == xs
    ensures ForbiddenElements(raw) == if xs == [[]] then None else Some(DropEmpty(xs))
  {
    SplitTrimmedPieces(raw);
    EmptyFieldPieces(raw);
    if xs == [[]] {
      var pieces := Split(raw, ',');
      assert |pieces| == 1 && Join(pieces, [',']) == pieces[0];
    }
  }

  /**
   * The field as typed: entries with whitespace around them, some of them
   * empty, separated by commas. It reads as the non-empty entries in order;
   * it reads as null only when the field held nothing but whitespace.
   */
  lemma ForbiddenElementsOfPaddedEntries(pre: seq<string>, xs: seq<string>, post: seq<string>)
    requires |pre| == |xs| == |post| >= 1
    requires forall i :: 0 <= i < |xs| ==>
      AllIn(pre[i], JsWhitespace) && AllIn(post[i], JsWhitespace) && IsTrimmed(xs[i], JsWhitespace) && ',' !in xs[i]
    ensures ForbiddenElements(Join(Padded(pre, xs, post), ",")) == if xs == [[]] then None else Some(DropEmpty(xs))
  {
    PaddedEntriesPieces(pre, xs, post);
    ForbiddenElementsOfPieces(Join(Padded(pre, xs, post), ","), xs);
  }

  /** Splitting the padded entries joined by commas gives back the entries, once trimmed. */
  lemma PaddedEntriesPieces(pre: seq<string>, xs: seq<string>, post: seq<string>)
    requires |pre| == |xs| == |post| >= 1
    requires forall i :: 0 <= i < |xs| ==>
      AllIn(pre[i], JsWhitespace) && AllIn(post[i], JsWhitespace) && IsTrimmed(xs[i], JsWhitespace) && ',' !in xs[i]
    ensures MapSeq(Split(Join(Padded(pre, xs, post), ","), ','), JsTrim) == xs
  {
    var entries := Padded(pre, xs, post);
    assert ',' !in JsWhitespace;
    forall i | 0 <= i < |entries|
      ensures ',' !in entries[i] && JsTrim(entries[i]) == xs[i]
    {
      assert ',' !in pre[i] && ',' !in post[i];
      TrimPadded(pre[i], xs[i], post[i], JsWhitespace);
    }
    assert "," == [','];
    SplitJoin(entries, ',');
  }

  /** A typical field: padding around the entries and one empty entry. */
  lemma ForbiddenElementsExample()
    ensures ForbiddenElements(" time travel, , dragons ") == Some(["time travel", "dragons"])
  {
    var pre := [" ", " ", " "];
    var xs := ["time travel", "", "dragons"];
    var post := ["", "", " "];
    assert forall i :: 0 <= i < |xs| ==>
      AllIn(pre[i], JsWhitespace) && AllIn(post[i], JsWhitespace) && IsTrimmed(xs[i], JsWhitespace) && ',' !in xs[i];
    ExampleField();
    ExampleEntries();
    ForbiddenElementsOfPaddedEntries(pre, xs, post);
  }

  lemma ExampleField()
    ensures Join(Padded([" ", " ", " "], ["time travel", "", "dragons"], ["", "", " "]), ",") == " time travel, , dragons "
  {
    var entries := Padded([" ", " ", " "], ["time travel", "", "dragons"], ["", "", " "]);
    assert entries[0] == " time travel" by { assert " " + "time travel" + "" == " time travel"; }
    assert entries[1] == " " by { assert " " + "" + "" == " "; }
    assert entries[2] == " dragons " by { assert " " + "dragons" + " " == " dragons "; }
    assert entries == [" time travel", " ", " dragons "];
    assert Join([" dragons "], ",") == " dragons ";
    assert Join([" ", " dragons "], ",") == " , dragons ";
    assert " time travel" + "," + " , dragons " == " time travel, , dragons ";
  }

  lemma ExampleEntries()
    ensures DropEmpty(["time travel", "", "dragons"]) == ["time travel", "dragons"]
  {
    var xs := ["time travel", "", "dragons"];
    assert xs[1..][1..] == ["dragons"] && ["dragons"][1..] == [];
    assert DropEmpty(["dragons"]) == ["dragons"];
    assert DropEmpty(xs[1..]) == ["dragons"];
  }

  /** `parseInt(...) || 4`: the step count, 4 when the input parses to NaN or 0. */
  function StepsOrFour(n: JsNumber): (r: int)
    ensures r != 0
    ensures Truthy(n) ==> r == n.value
    ensures !Truthy(n) ==> r == DefaultNumberOfSteps
  {
    if Truthy(n) then n.value else DefaultNumberOfSteps
  }

  /** `formToBrief()`. */
  function FormToBrief(form: BriefForm, parseInt: ParseInt): (r: ClientBrief)
    ensures r.zone == JsTrim(form.zone) && r.faction == JsTrim(form.faction) && r.tone == JsTrim(form.tone)
    ensures r.playerLevelMin == parseInt(form.levelMin) && r.playerLevelMax == parseInt(form.levelMax)
    ensures r.narrativeStyle.None? <==> JsTrim(form.style) == []
    ensures r.narrativeStyle.Some? ==> r.narrativeStyle.value == JsTrim(form.style)
    ensures r.numberOfSteps == StepsOrFour(parseInt(form.steps))
    ensures r.targetPlaytimeMinutes.None? <==> form.playtime == []
    ensures r.targetPlaytimeMinutes.Some? ==> r.targetPlaytimeMinutes.value == parseInt(form.playtime)
    ensures r.forbiddenElements == ForbiddenElements(form.forbidden)
  {
    var style := JsTrim(form.style);
    ClientBrief(
      JsTrim(form.zone),
      JsTrim(form.faction),
      JsTrim(form.tone),
      parseInt(form.levelMin),
      parseInt(form.levelMax),
      if |style| > 0 then Some(style) else None,
      StepsOrFour(parseInt(form.steps)),
      if |form.playtime| > 0 then Some(parseInt(form.playtime)) else None,
      ForbiddenElements(form.forbidden))
  }

  /** `JSON.stringify(brief)`: every field present, null and NaN as null. */
  function ClientBriefToJson(c: ClientBrief): Json {
    JObject(map[
      "zone" := JString(c.zone),
      "faction" := JString(c.faction),
      "tone" := JString(c.tone),
      "player_level_min" := NumberToJson(c.playerLevelMin),
      "player_level_max" := NumberToJson(c.playerLevelMax),
      "narrative_style" := OptionalStringToJson(c.narrativeStyle),
      "number_of_steps" := JInt(c.numberOfSteps),
      "target_playtime_minutes" := OptionalNumberToJson(c.targetPlaytimeMinutes),
      "forbidden_elements" :=
        match c.forbiddenElements
        case None => JNull
        case Some(xs) => JArray(MapSeq(xs, StringToJson))
    ])
  }

  /** What the server needs of a posted brief: both levels numbers of at least 1, and 3 to 8 steps. */
  predicate AcceptableBrief(c: ClientBrief) {
    && c.playerLevelMin.Num? && c.playerLevelMin.value >= MinPlayerLevel
    && c.playerLevelMax.Num? && c.playerLevelMax.value >= MinPlayerLevel
    && MinSteps <= c.numberOfSteps <= MaxSteps
  }

  /** The brief the server reads from a posted one whose levels are numbers. */
  function ServerBrief(c: ClientBrief): (b: QuestDesignBrief)
    requires c.playerLevelMin.Num? && c.playerLevelMax.Num?
    ensures AcceptableBrief(c) ==> BriefConstraints(b)
  {
    QuestDesignBrief(
      c.zone, c.faction, c.tone,
      c.playerLevelMin.value, c.playerLevelMax.value,
      c.narrativeStyle, c.numberOfSteps,
      IntSent(c.targetPlaytimeMinutes),
      c.forbiddenElements)
  }

  /** A posted brief with numeric levels is the server's own dump of the brief it reads. */
  lemma ClientBriefIsDumpOfServerBrief(c: ClientBrief)
    requires c.playerLevelMin.Num? && c.playerLevelMax.Num?
    ensures ClientBriefToJson(c) == BriefToJson(ServerBrief(c))
  {
    assert OptionalNumberToJson(c.targetPlaytimeMinutes) == OptionalIntToJson(IntSent(c.targetPlaytimeMinutes));
  }

  /**
   * The server accepts the brief the page posts exactly when both levels
   * parsed to numbers of at least 1 and the step count is 3 to 8; an
   * unparsable playtime is posted as null and accepted. What it accepts is
   * the form's brief, field for field.
   */
  lemma ServerAcceptsBriefIff(c: ClientBrief)
    ensures ValidateBrief(ClientBriefToJson(c)).Ok? <==> AcceptableBrief(c)
    ensures AcceptableBrief(c) ==> ValidateBrief(ClientBriefToJson(c)) == Ok(ServerBrief(c))
  {
    if AcceptableBrief(c) {
      ClientBriefIsDumpOfServerBrief(c);
      BriefRoundTrip(ServerBrief(c));
    } else {
      var m := ClientBriefToJson(c).fields;
      assert m["player_level_min"] == NumberToJson(c.playerLevelMin);
      assert m["player_level_max"] == NumberToJson(c.playerLevelMax);
      assert StepsOrDefault(m) == JInt(c.numberOfSteps);
      assert !IsBriefJson(ClientBriefToJson(c));
    }
  }

  /** A comma-joined list of clean, comma-free elements reads back as that list. */
  lemma ForbiddenElementsRoundTrip(xs: seq<string>)
    requires |xs| >= 1
    requires forall i :: 0 <= i < |xs| ==> xs[i] != [] && IsTrimmed(xs[i], JsWhitespace) && ',' !in xs[i]
    ensures ForbiddenElements(Join(xs, ",")) == Some(xs)
  {
    var s := Join(xs, ",");
    JoinIsTrimmed(xs);
    assert "," == [','];
    SplitJoin(xs, ',');
    TrimmedPiecesUnchanged(xs);
    assert DropEmpty(xs) == xs;
  }

  lemma JoinIsTrimmed(xs: seq<string>)
    requires |xs| >= 1 && xs[0] != [] && xs[|xs| - 1] != []
    requires IsTrimmed(xs[0], JsWhitespace) && IsTrimmed(xs[|xs| - 1], JsWhitespace)
    ensures Join(xs, ",") != [] && JsTrim(Join(xs, ",")) == Join(xs, ",")
  {
    JoinStartsWithFirst(xs, ",");
    JoinEndsWithLast(xs, ",");
    TrimOfTrimmed(Join(xs, ","), JsWhitespace);
  }

  lemma TrimmedPiecesUnchanged(xs: seq<string>)
    requires forall i :: 0 <= i < |xs| ==> IsTrimmed(xs[i], JsWhitespace)
    ensures MapSeq(xs, JsTrim) == xs
  {
    forall i | 0 <= i < |xs|
      ensures JsTrim(xs[i]) == xs[i]
    {
      TrimOfTrimmed(xs[i], JsWhitespace);
    }
  }

  /** A field of commas alone gives an empty list, not null. */
  lemma OnlyCommasGiveEmptyList()
    ensures ForbiddenElements(",,") == Some([])
  {
    CommasAreTrimmed();
    CommasSplitIntoEmpties();
    EmptiesDropped();
  }

  lemma CommasAreTrimmed()
    ensures JsTrim(",,") == ",,"
  {
    TrimOfTrimmed(",,", JsWhitespace);
  }

  lemma CommasSplitIntoEmpties()
    ensures Split(",,", ',') == ["", "", ""]
  {
    assert ",,"[1..] == ",";
    assert ","[1..] == "";
  }

  lemma EmptiesDropped()
    ensures DropEmpty(MapSeq(["", "", ""], JsTrim)) == []
  {
    var empties: seq<string> := ["", "", ""];
    assert JsTrim("") == "";
    assert MapSeq(empties, JsTrim) == empties;
    assert DropEmpty(empties[2..]) == [];
    assert DropEmpty(empties[1..]) == [];
  }

  // ---------------------------------------------------------------------
  // The rewards line of a rendered quest
  // ---------------------------------------------------------------------

  /** The amount suffix ` (amount)`, shown only when the amount is truthy. */
  function AmountSuffix(amount: Option<int>): (r: string)
    ensures r == [] <==> amount.None? || amount.value == 0
    ensures r != [] ==> |r| >= 3 && StartsWith(r, " (") && EndsWith(r, ")") && r[2..|r| - 1] == IntToString(amount.value)
  {
    if amount.Some? && amount.value != 0 then " (" + IntToString(amount.value) + ")" else ""
  }

  /** `${r.type.toUpperCase()}: ${r.description}` followed by the amount suffix. */
  function RewardLabel(r: Reward): (s: string)
    ensures StartsWith(s, ToUpperAscii(RewardTypeToken(r.rewardType)) + ": " + r.description)
    ensures EndsWith(s, AmountSuffix(r.amount))
    ensures |s| == |ToUpperAscii(RewardTypeToken(r.rewardType)) + ": " + r.description| + |AmountSuffix(r.amount)|
  {
    ToUpperAscii(RewardTypeToken(r.rewardType)) + ": " + r.description + AmountSuffix(r.amount)
  }

  /** The rewards line, or nothing when the quest has no rewards. */
  function RewardsLine(q: Quest): (r: Option<string>)
    ensures r.None? <==> q.rewards == []
  {
    if |q.rewards| > 0 then Some(Join(MapSeq(q.rewards, RewardLabel), " | ")) else None
  }

  /** Every reward's label appears in the rewards line. */
  lemma RewardsLineShowsEachReward(q: Quest, i: nat)
    requires i < |q.rewards|
    ensures RewardsLine(q).Some? && Contains(RewardsLine(q).value, RewardLabel(q.rewards[i]))
  {
    JoinContains(MapSeq(q.rewards, RewardLabel), " | ", i);
  }

  /** The labels appear in the rewards' order, each followed by " | " and the next. */
  lemma RewardsLineAdjacent(q: Quest, i: nat)
    requires i + 1 < |q.rewards|
    ensures RewardsLine(q).Some?
    ensures Contains(RewardsLine(q).value, RewardLabel(q.rewards[i]) + " | " + RewardLabel(q.rewards[i + 1]))
  {
    JoinAdjacent(MapSeq(q.rewards, RewardLabel), " | ", i);
  }

  /**
   * The rewards line opens with the first reward's label and closes with the
   * last one's (`labels[i]` is `RewardLabel(q.rewards[i])`).
   */
  lemma RewardsLineEnds(q: Quest)
    requires |q.rewards| >= 1
    ensures RewardsLine(q).Some?
    ensures var labels := MapSeq(q.rewards, RewardLabel);
      StartsWith(RewardsLine(q).value, labels[0]) && EndsWith(RewardsLine(q).value, labels[|labels| - 1])
  {
    var labels := MapSeq(q.rewards, RewardLabel);
    JoinStartsWithPiece(labels, " | ");
    JoinEndsWithPiece(labels, " | ");
  }

  /** An amount of 0 is rendered exactly like a missing one. */
  lemma ZeroAmountRendersAsMissing(t: RewardType, d: string)
    ensures RewardLabel(Reward(t, d, Some(0))) == RewardLabel(Reward(t, d, None))
  {
  }

  /** The type is shown in capitals: the token with each ASCII letter raised. */
  lemma RewardTypeShownUppercase(r: Reward)
    ensures var u := ToUpperAscii(RewardTypeToken(r.rewardType));
      u == (match r.rewardType
        case Xp => "XP"
        case Gold => "GOLD"
        case Item => "ITEM"
        case Cosmetic => "COSMETIC"
        case Other => "OTHER")
  {
    var t := RewardTypeToken(r.rewardType);
    var u := ToUpperAscii(t);
    assert |u| == |t|;
  }

  /**
   * A label does not determine its reward: a description that ends like an
   * amount suffix reads the same as a shorter description with that amount.
   */
  lemma DescriptionCanImitateAmount()
    ensures RewardLabel(Reward(Gold, "coins (5)", None)) == RewardLabel(Reward(Gold, "coins", Some(5)))
  {
    assert IntToString(5) == "5";
  }

  // ---------------------------------------------------------------------
  // Requests, replies and the session
  // ---------------------------------------------------------------------

  /**
   * The reply to a posted request: a quest; a failure status with the
   * error body's `detail` (`None` when absent or empty); or a request that
   * never completed, with its error message.
   */
  datatype Reply = Delivered(quest: Quest) | Rejected(status: int, detail: Option<string>) | Failed(message: string)

  /** The endpoint a request body is posted to. */
  type Server = Json -> Reply

  /** `err.detail || \`Request failed with status ${resp.status}\``, or the thrown error's own message. */
  function FailureMessage(reply: Reply): (m: string)
    requires !reply.Delivered?
    ensures reply.Rejected? && reply.detail.Some? && reply.detail.value != [] ==> m == reply.detail.value
    ensures reply.Rejected? && (reply.detail.None? || reply.detail.value == []) ==>
      StartsWith(m, "Request failed with status ") && EndsWith(m, IntToString(reply.status))
      && |m| == |"Request failed with status "| + |IntToString(reply.status)|
    ensures reply.Failed? ==> m == reply.message
  {
    match reply
    case Rejected(status, detail) =>
      if detail.Some? && detail.value != [] then detail.value
      else "Request failed with status " + IntToString(status)
    case Failed(message) => message
  }

  const GeneratingStatus := "Generating quest..."
  const GeneratedStatus := "Quest generated successfully."
  const NothingToRegenerateStatus := "No quest to regenerate. Generate a quest first."
  const ErrorStatusPrefix := "Error: "

  /** The `regenerate` payload: `{brief, quest, section, step_index}`. */
  function RegeneratePayload(b: ClientBrief, q: Quest, section: string, stepIndex: Option<JsNumber>): Json {
    JObject(map[
      "brief" := ClientBriefToJson(b),
      "quest" := QuestToJson(q),
      "section" := JString(section),
      "step_index" := OptionalNumberToJson(stepIndex)
    ])
  }

  /**
   * A payload built from an acceptable brief and a section token is read by
   * the server as exactly that brief, quest, section and index; a NaN index
   * arrives as no index.
   */
  lemma ServerAcceptsRegeneratePayload(b: ClientBrief, q: Quest, section: Section, stepIndex: Option<JsNumber>)
    requires AcceptableBrief(b)
    ensures ValidateRegenerateRequest(RegeneratePayload(b, q, SectionToken(section), stepIndex))
      == Ok(RegenerateSectionRequest(ServerBrief(b), q, section, IntSent(stepIndex)))
  {
    var req := RegenerateSectionRequest(ServerBrief(b), q, section, IntSent(stepIndex));
    ClientBriefIsDumpOfServerBrief(b);
    assert OptionalNumberToJson(stepIndex) == OptionalIntToJson(IntSent(stepIndex));
    assert RegeneratePayload(b, q, SectionToken(section), stepIndex) == RegenerateRequestToJson(req);
    RegenerateRequestRoundTrip(req);
  }

  /** The step-regeneration button's index: 0 when the input is empty, otherwise `parseInt` of it. */
  function StepIndexFromInput(raw: string, parseInt: ParseInt): (r: JsNumber)
    ensures raw == [] ==> r == Num(0)
    ensures raw != [] ==> r == parseInt(raw)
  {
    if |raw| > 0 then parseInt(raw) else Num(0)
  }

  /** With the index input left empty, the server is asked to regenerate the first step. */
  lemma EmptyStepInputTargetsFirstStep(b: ClientBrief, q: Quest, parseInt: ParseInt)
    requires AcceptableBrief(b)
    ensures var payload := RegeneratePayload(b, q, "steps", Some(StepIndexFromInput([], parseInt)));
      ValidateRegenerateRequest(payload) == Ok(RegenerateSectionRequest(ServerBrief(b), q, StepsSection, Some(0)))
  {
    assert StepIndexFromInput([], parseInt) == Num(0);
    assert SectionToken(StepsSection) == "steps";
    ServerAcceptsRegeneratePayload(b, q, StepsSection, Some(Num(0)));
  }

  /** The page's state: the last brief submitted, the quest shown, and the status line. */
  class Session {
    var currentBrief: Option<ClientBrief>
    var currentQuest: Option<Quest>
    var status: string

    /**
     * A quest is only ever held together with a brief. With it, a
     * regeneration is refused exactly when there is no quest.
     */
    predicate Valid()
      reads this
    {
      currentQuest.Some? ==> currentBrief.Some?
    }

    /** The page as loaded: no brief, no quest. */
    constructor ()
      ensures Valid()
      ensures currentBrief == None && currentQuest == None && status == []
    {
      currentBrief := None;
      currentQuest := None;
      status := [];
    }

    /** `generateQuest`: reads the form into a brief and submits it. */
    method GenerateQuest(form: BriefForm, parseInt: ParseInt, server: Server) returns (posted: Json)
      requires Valid()
      modifies this
      ensures Valid()
      ensures currentBrief == Some(FormToBrief(form, parseInt))
      ensures posted == ClientBriefToJson(currentBrief.value)
      ensures server(posted).Delivered? ==>
        currentQuest == Some(server(posted).quest) && status == GeneratedStatus
      ensures !server(posted).Delivered? ==>
        currentQuest == None && status == ErrorStatusPrefix + FailureMessage(server(posted))
    {
      var brief := FormToBrief(form, parseInt);
      posted := SubmitBrief(brief, server);
    }

    /**
     * The rest of `generateQuest`: records the brief and drops the quest
     * shown before posting; the reply's quest, if it brings one, becomes
     * current, and on failure no quest is held.
     */
    method SubmitBrief(brief: ClientBrief, server: Server) returns (posted: Json)
      requires Valid()
      modifies this
      ensures Valid()
      ensures currentBrief == Some(brief)
      ensures posted == ClientBriefToJson(brief)
      ensures server(posted).Delivered? ==>
        currentQuest == Some(server(posted).quest) && status == GeneratedStatus
      ensures !server(posted).Delivered? ==>
        currentQuest == None && status == ErrorStatusPrefix + FailureMessage(server(posted))
    {
      currentBrief := Some(brief);
      currentQuest := None;
      status := GeneratingStatus;
      posted := ClientBriefToJson(brief);
      var reply := server(posted);
      if reply.Delivered? {
        currentQuest := Some(reply.quest);
        status := GeneratedStatus;
      } else {
        status := ErrorStatusPrefix + FailureMessage(reply);
      }
    }

    /**
     * `regenerate(section, stepIndex)`: without a quest and a brief it posts
     * nothing and sets only the status; otherwise it posts both with the
     * section and index, and a delivered quest replaces the current one. The
     * brief is never changed, and a failure leaves the quest as it was.
     */
    method Regenerate(section: string, stepIndex: Option<JsNumber>, server: Server) returns (posted: Option<Json>)
      requires Valid()
      modifies this
      ensures Valid()
      ensures currentBrief == old(currentBrief)
      ensures posted.None? <==> old(currentQuest).None?
      ensures old(currentQuest).None? || old(currentBrief).None? ==>
        posted == None && currentQuest == old(currentQuest) && status == NothingToRegenerateStatus
      ensures old(currentQuest).Some? && old(currentBrief).Some? ==>
        posted == Some(RegeneratePayload(old(currentBrief).value, old(currentQuest).value, section, stepIndex))
      ensures posted.Some? && server(posted.value).Delivered? ==>
        currentQuest == Some(server(posted.value).quest)
        && status == "Successfully regenerated " + section + "."
      ensures posted.Some? && !server(posted.value).Delivered? ==>
        currentQuest == old(currentQuest)
        && status == ErrorStatusPrefix + FailureMessage(server(posted.value))
    {
      if currentQuest.None? || currentBrief.None? {
        status := NothingToRegenerateStatus;
        posted := None;
        return;
      }
      status := "Regenerating " + section + "...";
      var payload := RegeneratePayload(currentBrief.value, currentQuest.value, section, stepIndex);
      posted := Some(payload);
      var reply := server(payload);
      if reply.Delivered? {
        currentQuest := Some(reply.quest);
        status := "Successfully regenerated " + section + ".";
      } else {
        status := ErrorStatusPrefix + FailureMessage(reply);
      }
    }

    /** The step-regeneration button: regenerates "steps" at the index read from its input. */
    method RegenerateStep(raw: string, parseInt: ParseInt, server: Server) returns (posted: Option<Json>)
      requires Valid()
      modifies this
      ensures Valid()
      ensures currentBrief == old(currentBrief)
      ensures posted.None? <==> old(currentQuest).None?
      ensures old(currentQuest).Some? && old(currentBrief).Some? ==>
        posted == Some(RegeneratePayload(old(currentBrief).value, old(currentQuest).value, "steps",
          Some(StepIndexFromInput(raw, parseInt))))
      ensures old(currentQuest).None? || old(currentBrief).None? ==>
        posted == None && currentQuest == old(currentQuest) && status == NothingToRegenerateStatus
      ensures posted.Some? && server(posted.value).Delivered? ==>
        currentQuest == Some(server(posted.value).quest) && status == "Successfully regenerated steps."
      ensures posted.Some? && !server(posted.value).Delivered? ==>
        currentQuest == old(currentQuest) && status == ErrorStatusPrefix + FailureMessage(server(posted.value))
    {
      posted := Regenerate("steps", Some(StepIndexFromInput(raw, parseInt)), server);
    }
  }
}
