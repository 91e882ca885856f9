/** Prompt construction and provider selection (lib/ai/providers.ts), with the constant
    tables of types/ai.ts they read. The vendor SDK clients and their network calls are
    outside the model; a constructed provider is represented by its kind and API key, and
    the process environment is a map argument. */
module AiProviders {
  import opened Common
  import opened SectionTypes

  // ===========================================================================
  // Constants of types/ai.ts

  /** The model ids `AI_PROVIDERS` lists under a provider id, in order; none for other ids. */
  function ProviderModels(provider: string): seq<string> {
    if provider == "anthropic" then ["claude-sonnet-4-5-20250929", "claude-opus-4-1-20250514", "claude-haiku-4-5-20250513"]
    else if provider == "openai" then ["gpt-5", "gpt-5-turbo", "gpt-4-turbo"]
    else if provider == "google" then ["gemini-2.5-pro", "gemini-2.5-flash"]
    else []
  }

  /** `DEFAULT_AI_CONFIG`; the temperature is the exact decimal the source writes. */
  const DefaultProvider: string := "anthropic"
  const DefaultModel: string := "claude-sonnet-4-5-20250929"
  const DefaultTemperature: real := 0.7
  const DefaultMaxTokens: int := 4096
  const DefaultConfig: ProviderConfig :=
    ProviderConfig(DefaultProvider, DefaultModel, None, Some(DefaultTemperature), Some(DefaultMaxTokens))

  // ===========================================================================
  // The fixed wording of the prompts

  /** The fixed texts `buildPrompt` assembles: the system prompt around the guidance, the
      two closing requests (each without the blank line that follows it), and the
      `SECTION_PROMPTS` record. The prompt builder takes them as a value so that its
      properties are stated for any wording; `StandardWording` is the one the application
      uses. */
  datatype Wording = Wording(
    systemIntro: string,
    systemGuidelines: string,
    reviewRequest: string,
    comprehensiveRequest: string,
    sectionPrompts: map<string, string>)

  const SystemIntro: string :=
    "You are a professional legal writing assistant specializing in creating high-quality legal documents and reports.\n\nYour task: "

  const SystemGuidelines: string :=
    "\n\nWriting Guidelines:\n- Use clear, professional legal language\n- Be precise and avoid ambiguity\n- Structure content logically with appropriate headings\n- Use proper legal citation format where applicable\n- Maintain a formal, objective tone\n- Support assertions with reasoning\n- Be concise while remaining comprehensive"

  // Each closing request is written as its first word followed by the rest, so that
  // `StandardWordingSolid` can state the character that starts it.

  /** The review request, up to the blank line that follows it. */
  const ReviewRequest: string :=
    "Please" + " review the existing content above and:" +
    "\n- Expand on key points with more detail and analysis" +
    "\n- Add relevant examples, case law, or supporting evidence" +
    "\n- Improve clarity and structure where needed" +
    "\n- Fill in any gaps or areas that need more explanation" +
    "\n- Maintain consistency with the existing content's tone and focus"

  /** The default request, up to the blank line that follows it. */
  const ComprehensiveRequest: string :=
    "Please" + " generate comprehensive content for this section."

  /** `SECTION_PROMPTS`, keyed by the section type's column value. */
  const SectionPrompts: map<string, string> :=
    map[
      "title_page" := "Generate a professional title page with appropriate legal document formatting.",
      "executive_summary" := "Write a concise executive summary highlighting key findings and recommendations. Use clear, professional language appropriate for legal stakeholders.",
      "table_of_contents" := "Generate a well-structured table of contents with appropriate section numbering.",
      "introduction" := "Write an introduction that provides context, outlines the scope, and states the purpose of this legal document.",
      "background" := "Provide comprehensive background information, including relevant facts, history, and context necessary for understanding the matter.",
      "analysis" := "Conduct a thorough legal analysis, examining relevant statutes, case law, and applying them to the facts at hand.",
      "findings" := "Present clear, numbered findings based on the evidence and analysis. Be precise and objective.",
      "discussion" := "Discuss the implications of the findings, addressing key issues and potential counterarguments.",
      "methodology" := "Describe the methodology used in conducting this research or analysis, including sources and analytical frameworks.",
      "recommendations" := "Provide specific, actionable recommendations based on the analysis and findings.",
      "conclusion" := "Summarize the key points and provide a clear, conclusive statement.",
      "appendix" := "Format supplementary materials, exhibits, or supporting documentation.",
      "exhibit" := "Describe and reference the exhibit with appropriate legal citation format.",
      "references" := "Compile and format all references using appropriate legal citation style (Bluebook).",
      "glossary" := "Define key terms and legal concepts used throughout the document.",
      "acknowledgments" := "Draft professional acknowledgments for contributors and sources.",
      "custom" := "Generate content for this custom section based on its title and context."]

  const StandardWording: Wording :=
    Wording(SystemIntro, SystemGuidelines, ReviewRequest, ComprehensiveRequest, SectionPrompts)

  /** Non-empty, and neither starts nor ends with white space. */
  predicate Solid(s: string) {
    |s| > 0 && !IsJsSpace(s[0]) && !IsJsSpace(s[|s| - 1])
  }

  /** What the trimming arguments below need of the closing requests. */
  predicate WordingSolid(w: Wording) {
    Solid(w.reviewRequest) && Solid(w.comprehensiveRequest)
  }

  /** The application's wording meets what the prompt lemmas below require of a wording. */
  lemma StandardWordingSolid()
    ensures WordingSolid(StandardWording)
  {
  }

  /** Every section type has its own entry, so the `custom` fallback serves only type
      strings outside the enumeration. */
  lemma SectionPromptsCoverTypes(t: SectionType)
    ensures Tag(t) in SectionPrompts && SectionPrompts[Tag(t)] != ""
  {
  }

  // ===========================================================================
  // buildPrompt

  datatype ReportContext = ReportContext(title: string, audience: Option<string>, purpose: Option<string>)

  /** `AIGenerationRequest`; absent optional fields are `None`. */
  datatype GenerationRequest = GenerationRequest(
    sectionType: string,
    sectionTitle: Option<string>,
    existingContent: Option<string>,
    reportContext: Option<ReportContext>,
    instruction: Option<string>)

  datatype Prompt = Prompt(system: string, user: string)

  /** `SECTION_PROMPTS[sectionType] || SECTION_PROMPTS.custom`; a missing `custom` entry
      would print as "undefined". */
  function Guidance(w: Wording, sectionType: string): string {
    var table := w.sectionPrompts;
    if sectionType in table && table[sectionType] != "" then table[sectionType]
    else if "custom" in table then table["custom"]
    else "undefined"
  }

  function SystemPrompt(w: Wording, guidance: string): string {
    w.systemIntro + guidance + w.systemGuidelines
  }

  const ExistingHeader: string := "Existing content in this section:\n---\n"
  const InstructionLabel: string := "Specific instructions: "
  const TitleLabel: string := "Report Title: "

  /** The report-context lines: the title always, audience and purpose only when truthy,
      then a blank line; nothing without a context. */
  function ContextPart(context: Option<ReportContext>): string {
    match context
    case None => ""
    case Some(c) =>
      var title := TitleLabel + c.title + "\n";
      var audience := if Truthy(c.audience) then title + ("Intended Audience: " + c.audience.value + "\n") else title;
      var purpose := if Truthy(c.purpose) then audience + ("Purpose: " + c.purpose.value + "\n") else audience;
      purpose + "\n"
  }

  function SectionPart(title: Option<string>): string {
    if Truthy(title) then "Section: " + title.value + "\n\n" else ""
  }

  function ExistingPart(content: Option<string>): string {
    if Truthy(content) then ExistingHeader + content.value + "\n---" + "\n\n" else ""
  }

  /** The closing request without its trailing blank line: the instruction wins over the
      review of existing content, and the comprehensive request is the fallback. */
  function Closing(w: Wording, instruction: Option<string>, content: Option<string>): string {
    if Truthy(instruction) then InstructionLabel + instruction.value
    else if Truthy(content) then w.reviewRequest
    else w.comprehensiveRequest
  }

  /** The user text before the final `trim()`. */
  function RawUser(w: Wording, r: GenerationRequest): string {
    ContextPart(r.reportContext) + SectionPart(r.sectionTitle) + ExistingPart(r.existingContent) +
      (Closing(w, r.instruction, r.existingContent) + "\n\n")
  }

  /** The pair `buildPrompt` returns. */
  function PromptFor(w: Wording, r: GenerationRequest): Prompt {
    Prompt(SystemPrompt(w, Guidance(w, r.sectionType)), Trim(RawUser(w, r)))
  }

  /** `buildPrompt`: appends the user text part by part, then trims it. */
  method BuildPrompt(request: GenerationRequest, w: Wording) returns (p: Prompt)
    ensures p == PromptFor(w, request)
  {
    var guidance := Guidance(w, request.sectionType);
    var system := w.systemIntro + guidance + w.systemGuidelines;
    var user := "";
    if request.reportContext.Some? {
      var c := request.reportContext.value;
      user := TitleLabel + c.title + "\n";
      if Truthy(c.audience) {
        user := user + ("Intended Audience: " + c.audience.value + "\n");
      }
      if Truthy(c.purpose) {
        user := user + ("Purpose: " + c.purpose.value + "\n");
      }
      user := user + "\n";
    }
    ghost var head := ContextPart(request.reportContext);
    assert user == head;
    if Truthy(request.sectionTitle) {
      user := user + ("Section: " + request.sectionTitle.value + "\n\n");
    }
    head := head + SectionPart(request.sectionTitle);
    assert user == head;
    if Truthy(request.existingContent) {
      user := user + (ExistingHeader + request.existingContent.value + "\n---" + "\n\n");
    }
    head := head + ExistingPart(request.existingContent);
    assert user == head;
    if Truthy(request.instruction) {
      user := user + (InstructionLabel + request.instruction.value + "\n\n");
    } else if Truthy(request.existingContent) {
      user := user + (w.reviewRequest + "\n\n");
    } else {
      user := user + (w.comprehensiveRequest + "\n\n");
    }
    p := Prompt(system, Trim(user));
  }

  /** A type with a non-empty entry gets that entry; any other type string gets the
      `custom` entry. Either way the guidance is part of the system prompt. */
  lemma GuidanceChoice(w: Wording, r: GenerationRequest)
    ensures var table := w.sectionPrompts;
            (r.sectionType in table && table[r.sectionType] != "" ==> Guidance(w, r.sectionType) == table[r.sectionType]) &&
            (!(r.sectionType in table && table[r.sectionType] != "") && "custom" in table ==>
               Guidance(w, r.sectionType) == table["custom"])
    ensures Contains(PromptFor(w, r).system, Guidance(w, r.sectionType))
  {
    ContainsInMiddle(w.systemIntro, Guidance(w, r.sectionType), w.systemGuidelines);
  }

  /** The closing request ends the user text, whichever of the three it is: the
      instruction (when it does not itself end in white space), else the review request
      when there is existing content, else the comprehensive request. */
  lemma RequestPrecedence(w: Wording, r: GenerationRequest)
    requires WordingSolid(w)
    ensures Truthy(r.instruction) && !IsJsSpace(r.instruction.value[|r.instruction.value| - 1]) ==>
              EndsWith(PromptFor(w, r).user, InstructionLabel + r.instruction.value)
    ensures !Truthy(r.instruction) && Truthy(r.existingContent) ==>
              EndsWith(PromptFor(w, r).user, w.reviewRequest)
    ensures !Truthy(r.instruction) && !Truthy(r.existingContent) ==>
              EndsWith(PromptFor(w, r).user, w.comprehensiveRequest)
  {
    var head := ContextPart(r.reportContext) + SectionPart(r.sectionTitle) + ExistingPart(r.existingContent);
    var body := Closing(w, r.instruction, r.existingContent);
    var raw := RawUser(w, r);
    if Solid(body) {
      assert OccursAt(body + "\n\n", 0, body);
      OccursInside(head, body + "\n\n", "", 0, body);
      assert raw + "" == raw;
      TrimKeepsTail(raw, |head|, body);
    }
  }

  /** Existing content reaches the model enclosed between `---` lines. */
  lemma ExistingContentEnclosed(w: Wording, r: GenerationRequest)
    ensures Truthy(r.existingContent) ==>
              Contains(PromptFor(w, r).user, ExistingHeader + r.existingContent.value + "\n---")
  {
    if Truthy(r.existingContent) {
      var head := ContextPart(r.reportContext) + SectionPart(r.sectionTitle);
      var part := ExistingPart(r.existingContent);
      var tail := Closing(w, r.instruction, r.existingContent) + "\n\n";
      var sub := ExistingHeader + r.existingContent.value + "\n---";
      assert OccursAt(part, 0, sub);
      assert RawUser(w, r) == head + part + tail;
      TrimContainsInner(head, part, tail, sub);
    }
  }

  lemma ContextOpensWithTitle(c: ReportContext)
    ensures OccursAt(ContextPart(Some(c)), 0, "Report Title:")
  {
    var sub := "Report Title:";
    var title := TitleLabel + c.title + "\n";
    var audience := if Truthy(c.audience) then title + ("Intended Audience: " + c.audience.value + "\n") else title;
    var purpose := if Truthy(c.purpose) then audience + ("Purpose: " + c.purpose.value + "\n") else audience;
    OccursAtStart(sub, " ", sub);
    OccursAtStart(TitleLabel, c.title, sub);
    OccursAtStart(TitleLabel + c.title, "\n", sub);
    if Truthy(c.audience) {
      OccursAtStart(title, "Intended Audience: " + c.audience.value + "\n", sub);
    }
    if Truthy(c.purpose) {
      OccursAtStart(audience, "Purpose: " + c.purpose.value + "\n", sub);
    }
    OccursAtStart(purpose, "\n", sub);
  }

  /** With a report context the user text opens with the report title line. */
  lemma ContextComesFirst(w: Wording, r: GenerationRequest)
    ensures r.reportContext.Some? ==> StartsWith(PromptFor(w, r).user, "Report Title:")
  {
    if r.reportContext.Some? {
      var context := ContextPart(r.reportContext);
      var section := SectionPart(r.sectionTitle);
      var existing := ExistingPart(r.existingContent);
      ContextOpensWithTitle(r.reportContext.value);
      OccursAtStart(context, section, "Report Title:");
      OccursAtStart(context + section, existing, "Report Title:");
      OccursAtStart(context + section + existing, Closing(w, r.instruction, r.existingContent) + "\n\n", "Report Title:");
      TrimKeepsHead(RawUser(w, r), "Report Title:");
    }
  }

  /** A request with nothing but a section type asks for comprehensive content and
      nothing else. */
  lemma BareRequest(w: Wording, sectionType: string)
    requires WordingSolid(w)
    ensures PromptFor(w, GenerationRequest(sectionType, None, None, None, None)).user == w.comprehensiveRequest
  {
    var body := w.comprehensiveRequest;
    var raw := RawUser(w, GenerationRequest(sectionType, None, None, None, None));
    assert raw == body + "\n\n";
    assert OccursAt(raw, 0, body);
    TrimKeepsInner(raw, 0, body);
    TrimKeepsTail(raw, 0, body);
  }

  // ===========================================================================
  // createAIProvider / getAPIKey

  /** A constructed provider client: its kind and the key it was given. */
  datatype ProviderClient =
    | AnthropicClient(apiKey: string)
    | OpenAIClient(apiKey: string)
    | GeminiClient(apiKey: string)

  /** `AIProviderConfig`; an absent optional field is `None`, and the temperature is an
      exact real rather than a double. */
  datatype ProviderConfig = ProviderConfig(
    provider: string, model: string, apiKey: Option<string>, temperature: Option<real>, maxTokens: Option<int>)

  /** `process.env[name] || ''`. */
  function EnvOrEmpty(env: map<string, string>, name: string): string {
    if name in env then env[name] else ""
  }

  /** `getAPIKey`: the provider's environment variable, or "" when unset; any other
      provider id throws. */
  function GetAPIKey(provider: string, env: map<string, string>): (r: Result<string, string>)
    ensures r.Err? <==> provider !in {"anthropic", "openai", "google"}
  {
    if provider == "anthropic" then Ok(EnvOrEmpty(env, "ANTHROPIC_API_KEY"))
    else if provider == "openai" then Ok(EnvOrEmpty(env, "OPENAI_API_KEY"))
    else if provider == "google" then Ok(EnvOrEmpty(env, "GEMINI_API_KEY"))
    else Err("No API key found for provider: " + provider)
  }

  /** `createAIProvider`: an explicit key wins over the environment, then the switch. */
  function CreateAIProvider(config: ProviderConfig, env: map<string, string>): Result<ProviderClient, string> {
    var key := if Truthy(config.apiKey) then Ok(config.apiKey.value) else GetAPIKey(config.provider, env);
    if key.Err? then Err(key.error)
    else if config.provider == "anthropic" then Ok(AnthropicClient(key.value))
    else if config.provider == "openai" then Ok(OpenAIClient(key.value))
    else if config.provider == "google" then Ok(GeminiClient(key.value))
    else Err("Unsupported AI provider: " + config.provider)
  }

  /** Exactly the three provider ids construct a client, of the matching kind, holding the
      explicit key when one is given and the environment's (or "") otherwise. */
  lemma CreateDispatch(config: ProviderConfig, env: map<string, string>)
    ensures CreateAIProvider(config, env).Ok? <==> config.provider in {"anthropic", "openai", "google"}
    ensures var r := CreateAIProvider(config, env);
            r.Ok? ==>
              (config.provider == "anthropic" <==> r.value.AnthropicClient?) &&
              (config.provider == "openai" <==> r.value.OpenAIClient?) &&
              (config.provider == "google" <==> r.value.GeminiClient?) &&
              r.value.apiKey == (if Truthy(config.apiKey) then config.apiKey.value
                                 else GetAPIKey(config.provider, env).value)
  {
  }

  /** An explicit key makes the environment irrelevant. */
  lemma ExplicitKeyBypassesEnvironment(config: ProviderConfig, env1: map<string, string>, env2: map<string, string>)
    requires Truthy(config.apiKey)
    ensures CreateAIProvider(config, env1) == CreateAIProvider(config, env2)
  {
  }

  /** An unknown provider fails in getAPIKey when no key is given, so the "Unsupported"
      message is reached only with an explicit key. */
  lemma UnknownProviderErrors(config: ProviderConfig, env: map<string, string>)
    requires config.provider !in {"anthropic", "openai", "google"}
    ensures !Truthy(config.apiKey) ==>
              CreateAIProvider(config, env) == Err("No API key found for provider: " + config.provider)
    ensures Truthy(config.apiKey) ==>
              CreateAIProvider(config, env) == Err("Unsupported AI provider: " + config.provider)
  {
  }

  /** A known provider with no key anywhere still gets a client, holding "". */
  lemma MissingEnvironmentGivesEmptyKey(provider: string)
    requires provider in {"anthropic", "openai", "google"}
    ensures CreateAIProvider(ProviderConfig(provider, "", None, None, None), map[]).Ok?
    ensures CreateAIProvider(ProviderConfig(provider, "", None, None, None), map[]).value.apiKey == ""
  {
  }
}
