/**
 * The per-agent analysis client of src/lib/llm.ts. The generative-model call
 * (`generateObject` with the analysis schema) is the parameter `model`: a
 * request goes in, and either a schema-valid object or a failure comes out.
 * Whatever the outcome, the client returns an analysis and never throws.
 */
module Llm {
  import opened Agents

  /** The schema's `sentiment` enum: exactly three values. */
  datatype Sentiment = SATISFIED | NEUTRAL | UNSATISFIED

  /** An object that passed the analysis schema (suggestion count unbounded). */
  datatype AgentAnalysis = AgentAnalysis(sentiment: Sentiment, suggestions: seq<string>, summary: string)

  /** What the client hands to the model. */
  datatype ModelRequest = ModelRequest(modelName: string, system: string, prompt: string)

  /** The model call either yields a schema-valid object or fails (network, model or validation error). */
  datatype ModelOutcome = Generated(analysis: AgentAnalysis) | Failed

  const ModelName := "gemini-1.5-flash"
  const PromptPrefix := "Analyze the following document content:\n\n"

  /** Returned for empty or whitespace-only content; the model is not consulted. */
  const EmptyFallback := AgentAnalysis(NEUTRAL, ["Start typing to get feedback!"], "Waiting for content...")

  /** Returned when the model call fails. */
  const ErrorFallback := AgentAnalysis(NEUTRAL, ["Brain freeze! I couldn't analyze that."], "Error during analysis.")

  /**
   * The code points JavaScript's `String.prototype.trim` strips: the
   * WhiteSpace and LineTerminator productions of ECMAScript (sections 12.2
   * and 12.3 of ECMA-262), which include every Unicode space separator (Zs).
   */
  predicate IsJsWhitespace(c: char)
  {
    c == '\t' || c == '\n' || c == '\U{000B}' || c == '\U{000C}' || c == '\r' || c == ' '
    || c == '\U{00A0}' || c == '\U{1680}' || ('\U{2000}' <= c <= '\U{200A}')
    || c == '\U{2028}' || c == '\U{2029}' || c == '\U{202F}' || c == '\U{205F}'
    || c == '\U{3000}' || c == '\U{FEFF}'
  }

  /** Every character of `s` is whitespace (the empty string included). */
  predicate IsBlank(s: string)
  {
    forall i :: 0 <= i < |s| ==> IsJsWhitespace(s[i])
  }

  /** `s` with its leading whitespace removed. */
  function TrimStart(s: string): (r: string)
    ensures |r| <= |s| && r == s[|s| - |r|..]
    ensures IsBlank(s[..|s| - |r|])
    ensures r != [] ==> !IsJsWhitespace(r[0])
  {
    if s != [] && IsJsWhitespace(s[0]) then
      var r := TrimStart(s[1..]);
      assert s[..|s| - |r|] == [s[0]] + s[1..][..|s| - 1 - |r|];
      r
    else s
  }

  /** `s` with its trailing whitespace removed. */
  function TrimEnd(s: string): (r: string)
    ensures |r| <= |s| && r == s[..|r|]
    ensures IsBlank(s[|r|..])
    ensures r != [] ==> !IsJsWhitespace(r[|r| - 1])
  {
    if s != [] && IsJsWhitespace(s[|s| - 1]) then
      var r := TrimEnd(s[..|s| - 1]);
      assert s[|r|..] == s[..|s| - 1][|r|..] + [s[|s| - 1]];
      r
    else s
  }

  /** `s.trim()`. */
  function Trim(s: string): (r: string)
  {
    TrimEnd(TrimStart(s))
  }

  /** `s.trim().length === 0` exactly when `s` is empty or all whitespace. */
  lemma TrimEmptyIffBlank(s: string)
    ensures |Trim(s)| == 0 <==> IsBlank(s)
  {
    var t := TrimStart(s);
    if !IsBlank(s) {
      var i :| 0 <= i < |s| && !IsJsWhitespace(s[i]);
      assert t != [];
      assert TrimEnd(t) != [];
    }
  }

  /** The request sent for one agent: its system prompt and the prefixed content. */
  function BuildRequest(docContent: string, agent: Agent): (r: ModelRequest)
    ensures r.modelName == ModelName
    ensures r.system == agent.systemPrompt
    ensures |r.prompt| == |PromptPrefix| + |docContent|
    ensures r.prompt[..|PromptPrefix|] == PromptPrefix && r.prompt[|PromptPrefix|..] == docContent
  {
    ModelRequest(ModelName, agent.systemPrompt, PromptPrefix + docContent)
  }

  /**
   * `analyzeDocumentWithAgent`: blank content short-circuits to the empty
   * fallback; otherwise the model is asked once, its validated object is
   * returned unchanged, and a failure becomes the error fallback.
   */
  function AnalyzeDocumentWithAgent(docContent: string, agent: Agent, model: ModelRequest -> ModelOutcome): (r: AgentAnalysis)
    ensures IsBlank(docContent) ==> r == EmptyFallback
    ensures !IsBlank(docContent) && model(BuildRequest(docContent, agent)).Failed? ==> r == ErrorFallback
    ensures !IsBlank(docContent) && model(BuildRequest(docContent, agent)).Generated? ==>
              r == model(BuildRequest(docContent, agent)).analysis
  {
    TrimEmptyIffBlank(docContent);
    if docContent == "" || |Trim(docContent)| == 0 then
      EmptyFallback
    else
      match model(BuildRequest(docContent, agent))
      case Generated(analysis) => analysis
      case Failed => ErrorFallback
  }

  /**
   * The result is always an analysis whose sentiment is one of the three
   * enum values; a fallback carries exactly one suggestion and a NEUTRAL
   * sentiment, and the two fallbacks are told apart by their summaries.
   */
  lemma AnalysisOutcomes(docContent: string, agent: Agent, model: ModelRequest -> ModelOutcome)
    ensures var r := AnalyzeDocumentWithAgent(docContent, agent, model);
            r == EmptyFallback || r == ErrorFallback
            || (model(BuildRequest(docContent, agent)).Generated? && r == model(BuildRequest(docContent, agent)).analysis)
    ensures |EmptyFallback.suggestions| == 1 && |ErrorFallback.suggestions| == 1
    ensures EmptyFallback.sentiment == NEUTRAL && ErrorFallback.sentiment == NEUTRAL
    ensures EmptyFallback.summary != ErrorFallback.summary
  {
  }

  /** Blank content never consults the model: any two models give the same answer. */
  lemma BlankIgnoresModel(docContent: string, agent: Agent, m1: ModelRequest -> ModelOutcome, m2: ModelRequest -> ModelOutcome)
    requires IsBlank(docContent)
    ensures AnalyzeDocumentWithAgent(docContent, agent, m1) == AnalyzeDocumentWithAgent(docContent, agent, m2)
  {
  }

  /** Examples: whitespace-only content gets the empty fallback; "Hello world." reaches the model. */
  lemma WhitespaceExamples(agent: Agent, model: ModelRequest -> ModelOutcome)
    ensures AnalyzeDocumentWithAgent(" \n\t", agent, model) == EmptyFallback
    ensures AnalyzeDocumentWithAgent("", agent, model) == EmptyFallback
    ensures model(BuildRequest("Hello world.", agent)) == Failed ==>
              AnalyzeDocumentWithAgent("Hello world.", agent, model) == ErrorFallback
  {
    assert !IsJsWhitespace("Hello world."[0]);
  }
}
