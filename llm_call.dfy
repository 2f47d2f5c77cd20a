/** The configurable vector search client (`llm_call`): a tool schema and a system
    prompt (with an optional multilingual section) built once per client, and the
    two ask functions, non-streaming and streaming, that run the agent loop with
    the standalone search tool. Also the fixed Scaling Up client. */
module LlmCall {
  import opened Common
  import opened Retrieval
  import RagTool
  import opened Agent

  const DEFAULT_MAX_TOOL_CALLS: int := 4
  const SCALING_UP_MAX_TOOL_CALLS: int := 4

  // The prompt's fixed texts are written as concatenations of short literals, which keeps
  // proofs that look at their lengths or characters cheap.

  function EnglishOnlySection(): string {
    "## LANGUAGE\nUsers will " + "ask questions in " + "English, and you should " + "respond in English.\n"
  }

  function TranslationSentence(): string {
    "For all non-English " + "tool responses, " + "translate them to the " + "appropriate language."
  }

  // ---------------------------------------------------------------------------
  // create_vector_search_tool

  function QueryDescription(indexName: string): string {
    "The query to search the " + indexName + QueryDescriptionTail()
  }

  function QueryDescriptionTail(): string {
    " Pinecone index for " + "relevant information. "
    + "Based on the user's " + "query, you should be " + "able to retrieve the " + "most relevant " + "information from the " + "index."
  }

  /** The tool schema; the search limits and the embedding model it is given do not
      appear in it. */
  function VectorSearchTool(toolName: string, toolDescription: string, indexName: string): FunctionTool {
    QueryTool(toolName, toolDescription, QueryDescription(indexName))
  }

  // ---------------------------------------------------------------------------
  // create_system_prompt

  /** `", ".join(languages[:-1]) + ", and " + languages[-1]`. */
  function LanguageList(languages: seq<string>): string
    requires |languages| >= 1
  {
    Join(", ", languages[..|languages| - 1]) + ", and " + languages[|languages| - 1]
  }

  function ReplyRule(language: string): string {
    "For " + language + " user queries, you MUST " + "reply in " + language + "."
  }

  function ReplyRules(languages: seq<string>): (rules: seq<string>)
    ensures |rules| == |languages|
    ensures forall i :: 0 <= i < |languages| ==> rules[i] == ReplyRule(languages[i])
  {
    seq(|languages|, i requires 0 <= i < |languages| => ReplyRule(languages[i]))
  }

  /** The language section ending the prompt. */
  function LanguageSection(multilingual: bool, languages: seq<string>): string {
    if multilingual && |languages| > 1 then
      MultilingualHead(languages) + (Join(" ", ReplyRules(languages)) + ("\n" + TranslationTail(languages)))
    else EnglishOnlySection()
  }

  /** The translation sentence when English is not among the languages. */
  function TranslationTail(languages: seq<string>): string {
    if "English" !in languages then TranslationSentence() else ""
  }

  /** The multilingual section's opening, naming the languages. */
  function MultilingualHead(languages: seq<string>): string
    requires |languages| >= 1
  {
    MultilingualOpening() + (LanguageList(languages) + MultilingualClosing())
  }

  function MultilingualOpening(): string {
    "## LANGUAGE\nUsers may " + "ask questions in "
  }

  function MultilingualClosing(): string {
    ", and can switch " + "languages " + "mid-conversation.\n"
    + " The tool returns " + "English text; You MUST " + "format your responses " + "accordingly.\n"
  }

  function PromptHeader(assistantName: string, indexDescription: string): string {
    "# Identity\n"
    + "You are " + assistantName + ", an AI agent that " + "retrieves relevant " + "information from the " + indexDescription + ".\n\n"
    + Instructions()
  }

  function Instructions(): string {
    "# Instructions\n"
    + "## PERSISTENCE\n"
    + "You are an agent—keep " + "working until the " + "user's query is fully " + "resolved. Only stop " + "when you're sure the " + "problem is solved.\n"
    + "## TOOL CALLING\n"
    + "Use the available " + "search function to " + "fetch relevant " + "information. Do NOT " + "guess or hallucinate " + "results."
    + " If you need " + "clarification to call " + "the tool, ask the user.\n"
    + "## PLANNING\n"
    + "Plan extensively: " + "decide whether to call " + "the function, reflect " + "on results, then " + "finalize the answer.\n"
  }

  function SystemPrompt(assistantName: string, indexDescription: string, multilingual: bool, languages: seq<string>): string {
    PromptHeader(assistantName, indexDescription) + LanguageSection(multilingual, languages)
  }

  /** The English-only section unless multilingual with at least two languages; a
      multilingual section opens with the sentence naming the languages. */
  lemma LanguageSectionCases(multilingual: bool, languages: seq<string>)
    ensures !(multilingual && |languages| > 1) ==> LanguageSection(multilingual, languages) == EnglishOnlySection()
    ensures multilingual && |languages| > 1 ==>
      MultilingualOpening() + LanguageList(languages) <= LanguageSection(multilingual, languages)
  {
    if multilingual && |languages| > 1 {
      PrefixRegroup(MultilingualOpening(), LanguageList(languages), MultilingualClosing(),
                    Join(" ", ReplyRules(languages)) + ("\n" + TranslationTail(languages)));
    }
  }

  /** A multilingual section ends with the translation sentence exactly when English is
      not among the languages. */
  lemma TranslationUnlessEnglish(languages: seq<string>)
    requires |languages| > 1
    ensures EndsWith(LanguageSection(true, languages), TranslationSentence()) <==> "English" !in languages
  {
    var head := MultilingualHead(languages);
    var rules := Join(" ", ReplyRules(languages));
    var tail := "\n" + TranslationTail(languages);
    if "English" in languages {
      assert tail == "\n";
      assert (rules + tail)[|rules + tail| - 1] == '\n';
      assert (head + (rules + tail))[|head + (rules + tail)| - 1] == '\n';
      if EndsWith(head + (rules + tail), TranslationSentence()) {
        EndsWithLast(head + (rules + tail), TranslationSentence());
      }
    } else {
      EndsWithAppend("\n", TranslationSentence());
      EndsWithExtend(rules, tail, TranslationSentence());
      EndsWithExtend(head, rules + tail, TranslationSentence());
    }
  }

  /** A multilingual section carries the reply rule of every language. */
  lemma EveryLanguageHasRule(languages: seq<string>, i: nat)
    requires |languages| > 1 && i < |languages|
    ensures Contains(LanguageSection(true, languages), ReplyRule(languages[i]))
  {
    var rules := Join(" ", ReplyRules(languages));
    var tail := "\n" + TranslationTail(languages);
    JoinContains(" ", ReplyRules(languages), i);
    ContainsExtend(rules, ReplyRule(languages[i]), tail);
    ContainsExtend(rules + tail, ReplyRule(languages[i]), MultilingualHead(languages));
  }

  /** The worked example of the client: English and Spanish. */
  lemma EnglishAndSpanish()
    ensures LanguageList(["English", "Spanish"]) == "English, and Spanish"
    ensures LanguageList(["English", "Spanish", "Greek"]) == "English, Spanish, and Greek"
  {
    assert ["English", "Spanish"][..1] == ["English"];
    assert ["English", "Spanish", "Greek"][..2] == ["English", "Spanish"];
    assert ["English", "Spanish"][..1] == ["English"];
  }

  // ---------------------------------------------------------------------------
  // create_vector_search_client

  /** The arguments of `create_vector_search_client`. */
  datatype ClientConfig = ClientConfig(
    toolName: string, toolDescription: string, assistantName: string, indexDescription: string,
    indexName: string, namespace: string, topK: int, topReranked: int, embeddingModel: string,
    multilingual: bool, languages: seq<string>, maxToolCalls: int)

  /** A configuration with every defaulted argument left at its default. */
  function DefaultConfig(toolName: string, toolDescription: string, assistantName: string, indexDescription: string,
                         indexName: string, namespace: string): ClientConfig
  {
    ClientConfig(toolName, toolDescription, assistantName, indexDescription, indexName, namespace,
                 RagTool.DEFAULT_TOP_K, RagTool.DEFAULT_TOP_RERANKED, RagTool.DEFAULT_EMBEDDING_MODEL,
                 false, ["English"], DEFAULT_MAX_TOOL_CALLS)
  }

  /** What the two returned functions close over. */
  datatype Client = Client(tools: seq<FunctionTool>, systemPrompt: string, target: SearchTarget, maxToolCalls: int)

  function CreateClient(config: ClientConfig): (client: Client)
    ensures |client.tools| == 1 && WellFormedTool(client.tools[0]) && client.tools[0].name == config.toolName
    ensures client.target.indexName == config.indexName && client.target.namespace == config.namespace
    ensures client.maxToolCalls == config.maxToolCalls
  {
    Client([VectorSearchTool(config.toolName, config.toolDescription, config.indexName)],
           SystemPrompt(config.assistantName, config.indexDescription, config.multilingual, config.languages),
           SearchTarget(config.indexName, config.namespace, config.topK, config.topReranked, config.embeddingModel),
           config.maxToolCalls)
  }

  /** A client with the default arguments answers in English only. */
  lemma DefaultClientEnglishOnly(toolName: string, toolDescription: string, assistantName: string,
                                 indexDescription: string, indexName: string, namespace: string)
    ensures var client := CreateClient(DefaultConfig(toolName, toolDescription, assistantName, indexDescription, indexName, namespace));
      EndsWith(client.systemPrompt, EnglishOnlySection()) && client.maxToolCalls == 4
      && client.target == RagTool.DefaultTarget(indexName, namespace)
  {
    LanguageSectionCases(false, ["English"]);
    EndsWithAppend(PromptHeader(assistantName, indexDescription), EnglishOnlySection());
  }

  /** The model side of a client: the k-th non-streaming request given the `tools` and
      the `input` it is sent, the argument parser and the streaming request. */
  datatype Models = Models(respond: (nat, seq<FunctionTool>, seq<Message>) -> Result<Response>,
                           parseQuery: string -> Result<Option<string>>,
                           openStream: (seq<FunctionTool>, seq<Message>) -> Result<EventStream>)

  /** Every request of the client carries its `tools`. */
  function Respond(client: Client, models: Models): (nat, seq<Message>) -> Result<Response> {
    (k: nat, input: seq<Message>) => models.respond(k, client.tools, input)
  }

  function OpenStream(client: Client, models: Models): seq<Message> -> Result<EventStream> {
    input => models.openStream(client.tools, input)
  }

  function Env(client: Client, backend: Backend, models: Models): Services {
    Services(Respond(client, models), models.parseQuery, q => RagTool.SearchText(q, client.target, backend))
  }

  /** `ask_vector_search`'s loop, from given initial messages. */
  function AskRunFrom(client: Client, backend: Backend, models: Models, initial: seq<Message>): Run {
    ToolLoop(Env(client, backend, models), client.maxToolCalls, true, initial, 0, [])
  }

  /** What `ask_vector_search` returns (`Ok`) or raises (`Err`), from given initial messages. */
  function AskAnswerFrom(client: Client, backend: Backend, models: Models, initial: seq<Message>): Result<string> {
    ToolLoopOutcome(Env(client, backend, models), client.maxToolCalls, true, initial, 0, []);
    AnswerOf(AskRunFrom(client, backend, models, initial).outcome)
  }

  /** What `ask_vector_search(history, query)` returns (`Ok`) or raises (`Err`). */
  function AskAnswer(client: Client, backend: Backend, models: Models, history: seq<Turn>, query: string): Result<string> {
    AskAnswerFrom(client, backend, models, InitialMessages(client.systemPrompt, history, query))
  }

  method AskVectorSearch(client: Client, backend: Backend, models: Models, history: seq<Turn>, query: string)
    returns (answer: Result<string>)
    ensures answer == AskAnswer(client, backend, models, history, query)
  {
    var messages := BuildMessages(client.systemPrompt, history, query);
    var run := RunToolLoop(Env(client, backend, models), client.maxToolCalls, true, messages);
    ToolLoopOutcome(Env(client, backend, models), client.maxToolCalls, true, messages, 0, []);
    answer := AnswerOf(run.outcome);
  }

  /** With a positive limit the answer is the model's text or a request's error, after at
      most `maxToolCalls` searches and `maxToolCalls + 1` requests; with a limit of zero
      or less no request is made and the unassigned-response error is raised. */
  lemma AskOutcomes(client: Client, backend: Backend, models: Models, initial: seq<Message>)
    ensures var run := AskRunFrom(client, backend, models, initial);
      && (client.maxToolCalls > 0 ==>
            && (run.outcome.Answer? || run.outcome.Raised?)
            && run.searches <= client.maxToolCalls && |run.requests| <= client.maxToolCalls + 1)
      && (client.maxToolCalls <= 0 ==>
            run.requests == [] && AskAnswerFrom(client, backend, models, initial) == Err(UNBOUND_RESPONSE_MESSAGE))
  {
    var env := Env(client, backend, models);
    ToolLoopOutcome(env, client.maxToolCalls, true, initial, 0, []);
    ToolLoopBounds(env, client.maxToolCalls, true, initial);
    if client.maxToolCalls <= 0 {
      NoRequestsWithoutBudget(env, client.maxToolCalls, true, initial);
    }
  }

  /** `ask_vector_search_stream`'s chunks, from given initial messages: an error of the
      tool phase propagates without a chunk; the stream stage retries once more on
      any failure. */
  function AskStreamFrom(client: Client, backend: Backend, models: Models, initial: seq<Message>): StreamResult {
    var run := ToolLoop(Env(client, backend, models), client.maxToolCalls, false, initial, 0, []);
    if run.outcome.Raised? then StreamResult([], Some(run.outcome.error), 0)
    else RetryStreamSpec(run.messages, OpenStream(client, models), Respond(client, models), |run.requests|)
  }

  function AskStream(client: Client, backend: Backend, models: Models, history: seq<Turn>, query: string): StreamResult {
    AskStreamFrom(client, backend, models, InitialMessages(client.systemPrompt, history, query))
  }

  method AskVectorSearchStream(client: Client, backend: Backend, models: Models, history: seq<Turn>, query: string)
    returns (result: StreamResult)
    ensures result == AskStream(client, backend, models, history, query)
  {
    var messages := BuildMessages(client.systemPrompt, history, query);
    var run, finalMessages := PrepareStream(Env(client, backend, models), client.maxToolCalls, messages);
    if run.outcome.Raised? {
      return StreamResult([], Some(run.outcome.error), 0);
    }
    result := RetryStream(finalMessages, OpenStream(client, models), Respond(client, models), |run.requests|);
  }

  /** The streaming ask makes at most `maxToolCalls` tool-phase requests and at most two
      fallbacks, and when the stream opens after a quiet tool phase, its deltas come
      first. */
  lemma AskStreamShape(client: Client, backend: Backend, models: Models, initial: seq<Message>)
    ensures var r := AskStreamFrom(client, backend, models, initial);
      var run := ToolLoop(Env(client, backend, models), client.maxToolCalls, false, initial, 0, []);
      && |run.requests| <= Max(0, client.maxToolCalls) && r.fallbackRequests <= 2
      && (run.outcome.Raised? ==> r == StreamResult([], Some(run.outcome.error), 0))
      && (!run.outcome.Raised? && models.openStream(client.tools, run.messages).Ok? ==>
            var ds := Deltas(models.openStream(client.tools, run.messages).value.events);
            |ds| <= |r.chunks| && r.chunks[..|ds|] == ds)
  {
    var run := ToolLoop(Env(client, backend, models), client.maxToolCalls, false, initial, 0, []);
    ToolLoopBounds(Env(client, backend, models), client.maxToolCalls, false, initial);
    if !run.outcome.Raised? {
      RetryStreamShape(run.messages, OpenStream(client, models), Respond(client, models), |run.requests|);
    }
  }

  // ---------------------------------------------------------------------------
  // The Scaling Up client.

  function ScalingUpTools(): seq<FunctionTool> {
    [QueryTool("scaling_up_search",
               "Search the Scaling Up " + "Pinecone index for " + "relevant information " + "based on a user query.",
               QueryDescription("Scaling Up"))]
  }

  function ScalingUpSystemPrompt(): string {
    "# Identity\n"
    + "You are Scaling Up " + "Search Assistant, an AI " + "agent that retrieves " + "relevant information " + "from the Scaling Up " + "Pinecone index.\n\n"
    + "# Instructions\n"
    + "## PERSISTENCE\n"
    + "You are an agent—keep " + "working until the " + "user's query is fully " + "resolved. Only stop " + "when you're sure the " + "problem is solved.\n"
    + "## TOOL CALLING\n"
    + "Use the " + "scaling_up_search " + "function to fetch " + "relevant information. " + "Do NOT guess or " + "hallucinate results."
    + " If you need " + "clarification to call " + "the tool, ask the user.\n"
    + "## PLANNING\n"
    + "Plan extensively: " + "decide whether to call " + "the function, reflect " + "on results, then " + "finalize the answer.\n"
    + "## LANGUAGE\n"
    + "Users may ask questions " + "in English or Greek, " + "and can switch " + "languages " + "mid-conversation.\n"
    + " The tool returns " + "English text; You MUST " + "format your responses " + "accordingly. For an " + "english user query, " + "reply to the user in " + "English.\n"
    + "For Greek user queries, " + "you MUST reply in Greek " + "and change the original " + "English tool call " + "output to Greek."
  }

  /** `ask_scaling_up` and `ask_scaling_up_stream` are the two ask functions of this
      client: the module's tools, prompt and limit, and `scaling_up_search`. */
  function ScalingUpClient(): Client {
    Client(ScalingUpTools(), ScalingUpSystemPrompt(), RagTool.DefaultTarget("scaling-up", "scaling-up-demo"),
           SCALING_UP_MAX_TOOL_CALLS)
  }

  method AskScalingUp(backend: Backend, models: Models, history: seq<Turn>, query: string) returns (answer: Result<string>)
    ensures answer == AskAnswer(ScalingUpClient(), backend, models, history, query)
  {
    answer := AskVectorSearch(ScalingUpClient(), backend, models, history, query);
  }

  method AskScalingUpStream(backend: Backend, models: Models, history: seq<Turn>, query: string) returns (result: StreamResult)
    ensures result == AskStream(ScalingUpClient(), backend, models, history, query)
  {
    result := AskVectorSearchStream(ScalingUpClient(), backend, models, history, query);
  }

  /** The Scaling Up search always reaches an answer or an error, never the
      unassigned-response fallback. */
  lemma ScalingUpAnswers(backend: Backend, models: Models, initial: seq<Message>)
    ensures var run := AskRunFrom(ScalingUpClient(), backend, models, initial);
      run.outcome.Answer? || run.outcome.Raised?
  {
    AskOutcomes(ScalingUpClient(), backend, models, initial);
  }

  /** The Scaling Up search runs at most four searches. */
  lemma ScalingUpSearchBound(backend: Backend, models: Models, initial: seq<Message>)
    ensures AskRunFrom(ScalingUpClient(), backend, models, initial).searches <= SCALING_UP_MAX_TOOL_CALLS
  {
    AskOutcomes(ScalingUpClient(), backend, models, initial);
  }
}
