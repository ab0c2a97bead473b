/**
 * The completion client: its configuration rule (an API key is mandatory,
 * the model name may be overridden from the environment) and the
 * post-processing of the model's reply (trim, strip a Markdown code fence
 * and its `json` tag, trim again, parse).
 *
 * The chat-completion service is the `Oracle` parameter and `json.loads` is
 * the `JsonParser` parameter; the environment is an explicit map.
 */
module LlmClient {
  import opened Wrappers
  import opened Json
  import opened Text

  const DefaultModel := "gpt-4o-mini"
  const ModelVariable := "OPENAI_MODEL"
  const ApiKeyVariable := "OPENAI_API_KEY"
  const MissingApiKeyMessage := "OPENAI_API_KEY environment variable is not set."
  const ParseFailurePrefix := "Failed to parse JSON from LLM response: "
  const RawSeparator := "\nRaw: "

  const Fence := "```"
  const JsonTag := "json"
  const Backtick: set<char> := {'`'}

  /** The exceptions the service lets through: `ValueError`s it raises and the transport's own errors. */
  datatype Error = ValueError(message: string) | TransportError(message: string)

  /** The process environment: the variables that are set, with their values. */
  type Environment = map<string, string>

  datatype ChatMessage = ChatMessage(role: string, content: string)

  /** One chat-completion call: credential, model, and the system and user messages. */
  datatype ChatRequest = ChatRequest(apiKey: string, model: string, messages: seq<ChatMessage>)

  /** The chat-completion service: the reply text of a request, or a transport failure. */
  type Oracle = ChatRequest -> Result<string, string>

  /** `json.loads`: the parsed value, or the decoder's error message. */
  type JsonParser = string -> Result<Json, string>

  /** A variable counts as set only when it is present and not empty. */
  predicate IsSet(env: Environment, name: string) {
    name in env && env[name] != ""
  }

  datatype LLMClient = LLMClient(model: string, apiKey: string) {

    function Request(systemPrompt: string, userPrompt: string): ChatRequest {
      ChatRequest(apiKey, model, [ChatMessage("system", systemPrompt), ChatMessage("user", userPrompt)])
    }

    /**
     * One round trip to the service. A transport failure is passed on as is;
     * otherwise the normalised reply is parsed, and a parse failure becomes a
     * ValueError that carries the normalised text. No partial value is returned.
     */
    function CompleteJson(oracle: Oracle, parse: JsonParser, systemPrompt: string, userPrompt: string): (r: Result<Json, Error>)
      ensures var reply := oracle(Request(systemPrompt, userPrompt));
        reply.Err? ==> r == Err(TransportError(reply.error))
      ensures var reply := oracle(Request(systemPrompt, userPrompt));
        reply.Ok? ==>
          var content := NormaliseResponse(reply.value);
          && (r.Ok? <==> parse(content).Ok?)
          && (r.Ok? ==> r.value == parse(content).value)
          && (r.Err? ==> r.error == ValueError(ParseFailureMessage(parse(content).error, content)))
    {
      match oracle(Request(systemPrompt, userPrompt))
      case Err(e) => Err(TransportError(e))
      case Ok(reply) =>
        var content := NormaliseResponse(reply);
        match parse(content)
        case Ok(value) => Ok(value)
        case Err(e) => Err(ValueError(ParseFailureMessage(e, content)))
    }
  }

  /**
   * `LLMClient(model)`: fails exactly when OPENAI_API_KEY is unset or empty;
   * the model is OPENAI_MODEL when that is set, the argument otherwise.
   */
  function NewClient(env: Environment, model: string): (r: Result<LLMClient, Error>)
    ensures r.Err? <==> !IsSet(env, ApiKeyVariable)
    ensures r.Err? ==> r.error == ValueError(MissingApiKeyMessage)
    ensures r.Ok? ==> r.value.apiKey == env[ApiKeyVariable] && r.value.apiKey != ""
    ensures r.Ok? ==> r.value.model == (if IsSet(env, ModelVariable) then env[ModelVariable] else model)
  {
    var chosenModel := if IsSet(env, ModelVariable) then env[ModelVariable] else model;
    if !IsSet(env, ApiKeyVariable) then Err(ValueError(MissingApiKeyMessage))
    else Ok(LLMClient(chosenModel, env[ApiKeyVariable]))
  }

  /** The message of the error raised for unparseable text: the decoder's message, then the text itself. */
  function ParseFailureMessage(decoderError: string, content: string): (r: string)
    ensures StartsWith(r, ParseFailurePrefix)
    ensures OccursAt(r, decoderError, |ParseFailurePrefix|)
    ensures EndsWith(r, RawSeparator + content)
    ensures |r| == |ParseFailurePrefix| + |decoderError| + |RawSeparator| + |content|
  {
    var r := ParseFailurePrefix + decoderError + RawSeparator + content;
    assert r[..|ParseFailurePrefix|] == ParseFailurePrefix;
    assert r[|ParseFailurePrefix|..|ParseFailurePrefix| + |decoderError|] == decoderError;
    assert r[|r| - |RawSeparator + content|..] == RawSeparator + content;
    r
  }

  /**
   * The text handed to the JSON parser: the reply trimmed; if it then starts
   * with three backticks, every leading and trailing backtick removed, one
   * leading `json` tag removed, and the rest trimmed again.
   */
  function NormaliseResponse(reply: string): (r: string)
    ensures IsTrimmed(r, PyWhitespace)
    ensures !StartsWith(Trim(reply, PyWhitespace), Fence) ==> r == Trim(reply, PyWhitespace)
  {
    var content := Trim(reply, PyWhitespace);
    if StartsWith(content, Fence) then
      var unfenced := Trim(content, Backtick);
      Trim(Untag(unfenced), PyWhitespace)
    else
      content
  }

  /** Removes one leading `json` tag, if there is one. */
  function Untag(s: string): (r: string)
    ensures StartsWith(s, JsonTag) ==> s == JsonTag + r
    ensures !StartsWith(s, JsonTag) ==> r == s
  {
    if StartsWith(s, JsonTag) then s[|JsonTag|..] else s
  }

  /** The payload does not begin or end with a backtick. */
  predicate NoBacktickEnds(p: string) {
    p == [] || (p[0] != '`' && p[|p| - 1] != '`')
  }

  function Backticks(n: nat): (r: string)
    ensures |r| == n && AllIn(r, Backtick)
  {
    seq(n, _ => '`')
  }

  /** A fenced reply already has no surrounding whitespace. */
  lemma FencedTrimmed(n: nat, body: string, m: nat)
    requires n >= 3 && NoBacktickEnds(body)
    requires m >= 1 || body == [] || body[|body| - 1] !in PyWhitespace
    ensures IsTrimmed(Backticks(n) + body + Backticks(m), PyWhitespace)
  {
    var s := Backticks(n) + body + Backticks(m);
    assert s[0] == '`';
    if m >= 1 {
      assert s[|s| - 1] == '`';
    } else if body == [] {
      assert s[|s| - 1] == '`';
    } else {
      assert s[|s| - 1] == body[|body| - 1];
    }
  }

  /** On a trimmed reply that opens with a fence, normalising is the fence branch alone. */
  lemma NormaliseFencedTrimmed(s: string)
    requires IsTrimmed(s, PyWhitespace) && StartsWith(s, Fence)
    ensures NormaliseResponse(s) == Trim(Untag(Trim(s, Backtick)), PyWhitespace)
  {
    TrimOfTrimmed(s, PyWhitespace);
  }

  /**
   * The general shape of a fenced reply: at least three opening backticks, a
   * body that neither starts nor ends with a backtick, and closing backticks
   * (or none, if the body then ends in non-whitespace). The parser sees the
   * body, less one leading `json` tag, trimmed.
   */
  lemma NormaliseFenced(n: nat, body: string, m: nat)
    requires n >= 3 && NoBacktickEnds(body)
    requires m >= 1 || body == [] || body[|body| - 1] !in PyWhitespace
    ensures NormaliseResponse(Backticks(n) + body + Backticks(m)) == Trim(Untag(body), PyWhitespace)
  {
    var s := Backticks(n) + body + Backticks(m);
    FencedTrimmed(n, body, m);
    FenceOpens(n, body, m);
    NormaliseFencedTrimmed(s);
    assert IsTrimmed(body, Backtick);
    TrimPadded(Backticks(n), body, Backticks(m), Backtick);
  }

  lemma FenceOpens(n: nat, body: string, m: nat)
    requires n >= 3
    ensures StartsWith(Backticks(n) + body + Backticks(m), Fence)
  {
    var s := Backticks(n) + body + Backticks(m);
    assert s[..3] == Fence by {
      assert s[0] == s[1] == s[2] == '`';
    }
  }

  lemma FenceIsThreeBackticks()
    ensures Backticks(3) == Fence
  {
  }

  /** A reply that is already trimmed and does not open with a backtick reaches the parser unchanged. */
  lemma UnfencedUnchanged(p: string)
    requires IsTrimmed(p, PyWhitespace) && (p == [] || p[0] != '`')
    ensures NormaliseResponse(p) == p
  {
    TrimOfTrimmed(p, PyWhitespace);
    if |p| >= 3 {
      assert p[..3][0] != Fence[0];
    }
  }

  /** Instance of the fenced shape for the "```json" fence with newlines around the payload. */
  lemma JsonFenceShape(p: string)
    requires NoBacktickEnds(p)
    ensures NormaliseResponse("```json\n" + p + "\n```") == Trim(Untag("json\n" + p + "\n"), PyWhitespace)
  {
    var body := "json\n" + p + "\n";
    var s := "```json\n" + p + "\n```";
    assert s == Backticks(3) + body + Backticks(3) by {
      FenceIsThreeBackticks();
    }
    NormaliseFenced(3, body, 3);
  }

  lemma JsonTagOfNewlineBody(p: string)
    ensures Untag("json\n" + p + "\n") == "\n" + p + "\n"
  {
    var body := "json\n" + p + "\n";
    assert body[..4] == JsonTag;
  }

  /**
   * A trimmed payload reads the same whether or not the reply wraps it in a
   * "```json" fence, so both replies give the same parse.
   */
  lemma FencedAndBareAgree(p: string)
    requires IsTrimmed(p, PyWhitespace) && NoBacktickEnds(p)
    ensures NormaliseResponse("```json\n" + p + "\n```") == p
    ensures NormaliseResponse(p) == p
  {
    JsonFenceShape(p);
    JsonTagOfNewlineBody(p);
    TrimPadded("\n", p, "\n", PyWhitespace);
    UnfencedUnchanged(p);
  }

  /** Whitespace around the reply never changes what reaches the parser. */
  lemma NormaliseIgnoresOuterWhitespace(reply: string)
    ensures NormaliseResponse(reply) == NormaliseResponse(Trim(reply, PyWhitespace))
  {
    var content := Trim(reply, PyWhitespace);
    TrimOfTrimmed(content, PyWhitespace);
    if StartsWith(content, Fence) {
      NormaliseFencedTrimmed(content);
    }
  }

  /**
   * A "```json" fenced reply with whitespace before or after the fence, such
   * as a trailing newline, still gives its payload.
   */
  lemma PaddedFenceGivesPayload(a: string, p: string, b: string)
    requires AllIn(a, PyWhitespace) && AllIn(b, PyWhitespace)
    requires IsTrimmed(p, PyWhitespace) && NoBacktickEnds(p)
    ensures NormaliseResponse(a + ("```json\n" + p + "\n```") + b) == p
  {
    var fenced := "```json\n" + p + "\n```";
    assert fenced[0] == '`' && fenced[|fenced| - 1] == '`';
    TrimPadded(a, fenced, b, PyWhitespace);
    NormaliseIgnoresOuterWhitespace(a + fenced + b);
    FencedAndBareAgree(p);
  }

  lemma AllBackticksStripped(n: nat, m: nat, p: string)
    requires n >= 3
    requires IsTrimmed(p, PyWhitespace) && NoBacktickEnds(p) && !StartsWith(p, JsonTag)
    ensures NormaliseResponse(Backticks(n) + p + Backticks(m)) == p
  {
    NormaliseFenced(n, p, m);
    assert Untag(p) == p;
    TrimOfTrimmed(p, PyWhitespace);
  }

  /** A body between two three-backtick fences. */
  lemma ThreeBacktickFence(body: string)
    requires NoBacktickEnds(body)
    ensures NormaliseResponse(Fence + body + Fence) == Trim(Untag(body), PyWhitespace)
  {
    FenceIsThreeBackticks();
    NormaliseFenced(3, body, 3);
  }

  /** `p` ends in neither whitespace nor a backtick. */
  predicate CleanEnd(p: string) {
    p == [] || (p[|p| - 1] !in PyWhitespace && p[|p| - 1] != '`')
  }

  lemma DoubledTag(p: string)
    requires CleanEnd(p)
    ensures "```jsonjson" + p + "```" == Fence + ("jsonjson" + p) + Fence
    ensures NoBacktickEnds("jsonjson" + p)
  {
  }

  /** The tag followed by a clean payload has nothing left to strip. */
  lemma TaggedTrimmed(p: string)
    requires CleanEnd(p)
    ensures IsTrimmed("json" + p, PyWhitespace)
  {
    assert ("json" + p)[0] == 'j';
  }

  lemma DoubledTagUntagged(p: string)
    ensures Untag("jsonjson" + p) == "json" + p
  {
    assert ("jsonjson" + p)[..4] == JsonTag;
  }

  /** A `json` tag is removed once only: a doubled tag leaves one `json` in the parsed text. */
  lemma JsonTagRemovedOnce(p: string)
    requires CleanEnd(p)
    ensures NormaliseResponse("```jsonjson" + p + "```") == "json" + p
  {
    DoubledTag(p);
    DoubledTagUntagged(p);
    TaggedTrimmed(p);
    ThreeBacktickFence("jsonjson" + p);
    TrimOfTrimmed("json" + p, PyWhitespace);
  }

  lemma SpacedTag(p: string)
    requires CleanEnd(p)
    ensures "``` json" + p + "```" == Fence + (" json" + p) + Fence
    ensures NoBacktickEnds(" json" + p)
  {
  }

  lemma SpacedTagUntagged(p: string)
    ensures Untag(" json" + p) == " " + ("json" + p)
  {
    assert (" json" + p)[0] != JsonTag[0];
  }

  /** The tag is removed only when it follows the backticks directly: after a space it stays. */
  lemma JsonTagKeptAfterSpace(p: string)
    requires CleanEnd(p)
    ensures NormaliseResponse("``` json" + p + "```") == "json" + p
  {
    SpacedTag(p);
    SpacedTagUntagged(p);
    TaggedTrimmed(p);
    ThreeBacktickFence(" json" + p);
    var x := " " + ("json" + p);
    assert x + "" == x;
    TrimPadded(" ", "json" + p, "", PyWhitespace);
  }
}
