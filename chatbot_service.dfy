/** The RAG chatbot service (`ChatbotService`): a vector search over the knowledge
    base index with reranking, exposed to the model as the `retrieve_knowledge`
    tool, and the chat loop in a streaming and a non-streaming variant. The
    settings the service reads (index, namespace, embedding model) are a parameter,
    and so are the model, the embedding/query backend and the reranker. */
module ChatbotService {
  import opened Common
  import opened Retrieval
  import opened Agent

  const DEFAULT_TOP_K: int := 9
  const DEFAULT_TOP_RERANKED: int := 4
  const MAX_TOOL_CALLS: int := 4
  const CONTENT_LIMIT: nat := 1000
  const DEFAULT_ASSISTANT_NAME := "FlowBot Assistant"
  const NO_RESULTS_TEXT := "No relevant information " + "found in the knowledge " + "base."
  /** The prompt of both chat variants, built for the default assistant name. */
  const DEFAULT_PROMPT: string := SystemPrompt(DEFAULT_ASSISTANT_NAME)

  /** The settings the service reads. */
  datatype Settings = Settings(indexName: string, namespace: string, embeddingModel: string)

  function Target(settings: Settings): SearchTarget {
    SearchTarget(settings.indexName, settings.namespace, DEFAULT_TOP_K, DEFAULT_TOP_RERANKED, settings.embeddingModel)
  }

  // ---------------------------------------------------------------------------
  // vector_search

  /** The reranking text of a match: its contextual summary when non-empty, its
      original text otherwise. */
  function Candidate(m: Match): string {
    var summary := Get(m.metadata, "contextual_summary", "");
    if summary != "" then summary else Get(m.metadata, "original_text", "")
  }

  /** The context block of the i-th reranked match (`i` counted from 0): its 1-based
      rank, a blank line and the match's fields. */
  function Block(i: nat, m: Match): string {
    NatToString(i + 1) + "\n\n" + BlockFields(m)
  }

  function BlockFields(m: Match): string {
    "ID: " + m.id + "\n"
    + "Document: " + Get(m.metadata, "source_file", "") + " (ID: " + Get(m.metadata, "document_id", "") + ")\n"
    + "Contextual summary: " + Get(m.metadata, "contextual_summary", "") + "\n"
    + "Content: " + Take(Get(m.metadata, "original_text", ""), CONTENT_LIMIT) + "...\n"
  }

  /** What `vector_search` returns; every exception inside it becomes a string. */
  function SearchText(query: Option<string>, target: SearchTarget, backend: Backend): string {
    match backend.query(target, query)
    case Err(e) => SearchError(e)
    case Ok(matches) =>
      var documents := Candidates(matches, Candidate);
      if documents == [] then NO_RESULTS_TEXT
      else match backend.rerank(query, documents, target.topReranked)
        case Err(e) => SearchError(e)
        case Ok(ranked) =>
          match Blocks(ranked, CandidateMap(matches, Candidate), Block)
          case Err(e) => SearchError(e)
          case Ok(blocks) => Join("\n", blocks)
  }

  method VectorSearch(query: Option<string>, target: SearchTarget, backend: Backend) returns (text: string)
    ensures text == SearchText(query, target, backend)
  {
    var response := backend.query(target, query);
    if response.Err? {
      return SearchError(response.error);
    }
    var documents, mapping := CollectCandidates(response.value, Candidate);
    if documents == [] {
      return NO_RESULTS_TEXT;
    }
    var reranked := backend.rerank(query, documents, target.topReranked);
    if reranked.Err? {
      return SearchError(reranked.error);
    }
    var results := FormatResults(reranked.value, mapping, Block);
    if results.Err? {
      return SearchError(results.error);
    }
    text := Join("\n", results.value);
  }

  /** The search's answers, case by case: a failed query or rerank is reported with the
      error prefix, no matches give the fixed sentence, and when every reranked text
      is a key of the text -> match dictionary the k-th block is formatted from the
      match that dictionary holds for the k-th item's text. */
  lemma SearchTextCases(query: Option<string>, target: SearchTarget, backend: Backend)
    ensures backend.query(target, query).Err? ==>
      SearchText(query, target, backend) == SearchError(backend.query(target, query).error)
    ensures backend.query(target, query) == Ok([]) ==> SearchText(query, target, backend) == NO_RESULTS_TEXT
    ensures backend.query(target, query).Ok? && backend.query(target, query).value != [] ==>
      var matches := backend.query(target, query).value;
      var ranked := backend.rerank(query, Candidates(matches, Candidate), target.topReranked);
      var mapping := CandidateMap(matches, Candidate);
      && (ranked.Err? ==> SearchText(query, target, backend) == SearchError(ranked.error))
      && (ranked.Ok? && (forall k :: 0 <= k < |ranked.value| ==> ranked.value[k].text in mapping) ==>
            SearchText(query, target, backend)
            == Join("\n", seq(|ranked.value|, k requires 0 <= k < |ranked.value| && ranked.value[k].text in mapping =>
                               Block(k, mapping[ranked.value[k].text]))))
  {
    if backend.query(target, query).Ok? && backend.query(target, query).value != [] {
      var matches := backend.query(target, query).value;
      var ranked := backend.rerank(query, Candidates(matches, Candidate), target.topReranked);
      var mapping := CandidateMap(matches, Candidate);
      if ranked.Ok? && forall k :: 0 <= k < |ranked.value| ==> ranked.value[k].text in mapping {
        ResolveAllPresent(ranked.value, mapping);
        var ms := Resolve(ranked.value, mapping).value;
        var blocks := seq(|ms|, i requires 0 <= i < |ms| => Block(i, ms[i]));
        var formatted := Blocks(ranked.value, mapping, Block);
        assert formatted.Ok? && |formatted.value| == |blocks|;
        assert forall i :: 0 <= i < |blocks| ==> formatted.value[i] == blocks[i];
        assert formatted.value == blocks;
        assert formatted == Ok(blocks);
        assert blocks == seq(|ranked.value|, k requires 0 <= k < |ranked.value| && ranked.value[k].text in mapping =>
                                               Block(k, mapping[ranked.value[k].text]));
        assert SearchText(query, target, backend) == Join("\n", blocks);
      }
    }
  }

  /** A reranked text that no match produced is the `KeyError` of the first such text,
      reported with the error prefix. */
  lemma SearchTextMissing(query: Option<string>, target: SearchTarget, backend: Backend, i: nat)
    requires backend.query(target, query).Ok? && backend.query(target, query).value != []
    requires var matches := backend.query(target, query).value;
      var ranked := backend.rerank(query, Candidates(matches, Candidate), target.topReranked);
      var mapping := CandidateMap(matches, Candidate);
      ranked.Ok? && i < |ranked.value| && ranked.value[i].text !in mapping
      && forall k :: 0 <= k < i ==> ranked.value[k].text in mapping
    ensures var ranked := backend.rerank(query, Candidates(backend.query(target, query).value, Candidate), target.topReranked);
      SearchText(query, target, backend) == SearchError(KeyErrorText(ranked.value[i].text))
  {
    var matches := backend.query(target, query).value;
    var ranked := backend.rerank(query, Candidates(matches, Candidate), target.topReranked);
    ResolveFirstMissing(ranked.value, CandidateMap(matches, Candidate), i);
  }

  /** The dictionary's keys are the reranking texts of the matches, and each maps to the
      last match with that text. */
  lemma MappingLastWins(matches: seq<Match>, i: nat)
    requires i < |matches|
    requires forall j :: i < j < |matches| ==> Candidate(matches[j]) != Candidate(matches[i])
    ensures CandidateMap(matches, Candidate).Keys == set k | 0 <= k < |matches| :: Candidate(matches[k])
    ensures CandidateMap(matches, Candidate)[Candidate(matches[i])] == matches[i]
  {
    CandidateMapKeys(matches, Candidate);
    CandidateMapLastWins(matches, Candidate, i);
  }

  /** A block opens with the 1-based rank, which reads back as that number, followed
      by a blank line. */
  lemma BlockNumbering(i: nat, m: Match)
    ensures var rank := NatToString(i + 1);
      var b := Block(i, m);
      |rank| + 2 <= |b| && b[..|rank|] == rank && b[|rank|..|rank| + 2] == "\n\n"
      && ParseNat(b[..|rank|]) == i + 1
  {
    var rank := NatToString(i + 1);
    var b := Block(i, m);
    assert b == rank + ("\n\n" + BlockFields(m));
    ParseNatToString(i + 1);
  }

  /** A block ends with at most the first 1000 characters of the match's original
      text, followed by an ellipsis. */
  lemma BlockTruncatesContent(i: nat, m: Match)
    ensures var content := Take(Get(m.metadata, "original_text", ""), CONTENT_LIMIT);
      EndsWith(Block(i, m), "Content: " + content + "...\n")
      && |content| <= CONTENT_LIMIT && content <= Get(m.metadata, "original_text", "")
  {
    var content := Take(Get(m.metadata, "original_text", ""), CONTENT_LIMIT);
    var t := "Content: " + content + "...\n";
    var pre := "ID: " + m.id + "\n"
      + "Document: " + Get(m.metadata, "source_file", "") + " (ID: " + Get(m.metadata, "document_id", "") + ")\n"
      + "Contextual summary: " + Get(m.metadata, "contextual_summary", "") + "\n";
    assert BlockFields(m) == pre + t;
    EndsWithAppend(pre, t);
    EndsWithExtend(NatToString(i + 1) + "\n\n", BlockFields(m), t);
  }

  // ---------------------------------------------------------------------------
  // Tools and prompt.

  /** `create_rag_tools`: the single `retrieve_knowledge` tool. */
  function RagTools(settings: Settings): (tools: seq<FunctionTool>)
    ensures |tools| == 1 && WellFormedTool(tools[0]) && tools[0].strict
    ensures tools[0].name == "retrieve_knowledge" && tools[0].required == ["query"]
    ensures Contains(tools[0].description, settings.indexName)
  {
    [QueryTool("retrieve_knowledge", RagToolDescription(settings.indexName),
               "The search query to " + "find relevant " + "information in the " + "knowledge base.")]
  }

  function RagToolDescription(indexName: string): (d: string)
    ensures Contains(d, indexName)
  {
    ContainsInfix(DescriptionLead(), indexName, " index.");
    DescriptionLead() + indexName + " index."
  }

  function DescriptionLead(): string {
    "Search the knowledge " + "base for relevant " + "information based on a " + "user query. "
    + "This tool retrieves the " + "most relevant " + "information from the "
  }

  /** `create_system_prompt(assistant_name)`. */
  function SystemPrompt(assistantName: string): string {
    "# Identity\n"
    + "You are " + assistantName + ", an AI assistant that " + "retrieves relevant " + "information from the " + "knowledge base.\n\n"
    + "# Instructions\n"
    + "## PERSISTENCE\n"
    + "You are an agent—keep " + "working until the " + "user's query is fully " + "resolved. Only stop " + "when you're sure the " + "problem is solved.\n"
    + "## TOOL CALLING\n"
    + "Use the " + "retrieve_knowledge " + "function to fetch " + "relevant information " + "from the knowledge " + "base. Do NOT guess or " + "hallucinate results."
    + " If you need " + "clarification to call " + "the tool, ask the user.\n"
    + "## PLANNING\n"
    + "Plan extensively: " + "decide whether to call " + "the function, reflect " + "on results, then " + "finalize the answer.\n"
    + "## LANGUAGE\n"
    + "Users will ask " + "questions in English, " + "and you should respond " + "in English.\n"
  }

  // ---------------------------------------------------------------------------
  // chat and process_chat

  /** The clients the service holds: the settings it reads, the embedding/index
      backend with the reranker, the model's non-streaming requests, the argument
      parser and the streaming request. */
  datatype Clients = Clients(settings: Settings, backend: Backend,
                             respond: (nat, seq<FunctionTool>, seq<Message>) -> Result<Response>,
                             parseQuery: string -> Result<Option<string>>,
                             openStream: (seq<FunctionTool>, seq<Message>) -> Result<EventStream>)

  /** Every request of the service carries `create_rag_tools()`. */
  function Respond(c: Clients): (nat, seq<Message>) -> Result<Response> {
    (k: nat, input: seq<Message>) => c.respond(k, RagTools(c.settings), input)
  }

  function OpenStream(c: Clients): seq<Message> -> Result<EventStream> {
    input => c.openStream(RagTools(c.settings), input)
  }

  /** The services the loop sees: the model, the argument parser and this service's
      vector search with its default limits. */
  function Env(c: Clients): Services {
    Services(Respond(c), c.parseQuery, q => SearchText(q, Target(c.settings), c.backend))
  }

  /** The non-streaming loop from given initial messages. */
  function ChatRunFrom(c: Clients, initial: seq<Message>): Run {
    ToolLoop(Env(c), MAX_TOOL_CALLS, true, initial, 0, [])
  }

  /** The loop answers or raises, never reaching the fallback that reads an unassigned
      response; it makes at most four searches and at most five requests, the first
      one sent the initial messages. */
  lemma ChatRunFromShape(c: Clients, initial: seq<Message>)
    ensures var run := ChatRunFrom(c, initial);
      && (run.outcome.Answer? || run.outcome.Raised?)
      && run.searches <= MAX_TOOL_CALLS && |run.requests| <= MAX_TOOL_CALLS + 1
      && |run.requests| >= 1 && run.requests[0] == initial
  {
    ToolLoopOutcome(Env(c), MAX_TOOL_CALLS, true, initial, 0, []);
    ToolLoopBounds(Env(c), MAX_TOOL_CALLS, true, initial);
  }

  /** What the non-streaming loop from given initial messages returns or raises. */
  function ChatAnswerFrom(c: Clients, initial: seq<Message>): Result<string> {
    ChatRunFromShape(c, initial);
    AnswerOf(ChatRunFrom(c, initial).outcome)
  }

  /** What `chat(history, query)` returns (`Ok`) or raises (`Err`). */
  function ChatAnswer(c: Clients, history: seq<Turn>, query: string): Result<string> {
    ChatAnswerFrom(c, InitialMessages(DEFAULT_PROMPT, history, query))
  }

  method Chat(c: Clients, history: seq<Turn>, query: string) returns (answer: Result<string>)
    ensures answer == ChatAnswer(c, history, query)
  {
    var messages := BuildMessages(DEFAULT_PROMPT, history, query);
    answer := ChatWith(c, messages);
  }

  method ChatWith(c: Clients, initial: seq<Message>) returns (answer: Result<string>)
    ensures answer == ChatAnswerFrom(c, initial)
  {
    var run := RunToolLoop(Env(c), MAX_TOOL_CALLS, true, initial);
    ChatRunFromShape(c, initial);
    answer := AnswerOf(run.outcome);
  }

  /** The chunks of the streaming variant from given initial messages. An error of the
      tool phase is not caught there and ends the generator without a chunk; the
      streaming stage catches everything. */
  function ProcessChatFrom(c: Clients, initial: seq<Message>): StreamResult {
    var run := ToolLoop(Env(c), MAX_TOOL_CALLS, false, initial, 0, []);
    if run.outcome.Raised? then StreamResult([], Some(run.outcome.error), 0)
    else ServiceStreamSpec(run.messages, OpenStream(c), Respond(c), |run.requests|)
  }

  /** `process_chat(history, query)`: the chunks the generator yields. */
  function ProcessChatSpec(c: Clients, history: seq<Turn>, query: string): StreamResult {
    ProcessChatFrom(c, InitialMessages(DEFAULT_PROMPT, history, query))
  }

  method ProcessChat(c: Clients, history: seq<Turn>, query: string) returns (result: StreamResult)
    ensures result == ProcessChatSpec(c, history, query)
  {
    var messages := BuildMessages(DEFAULT_PROMPT, history, query);
    result := ProcessChatWith(c, messages);
  }

  method ProcessChatWith(c: Clients, initial: seq<Message>) returns (result: StreamResult)
    ensures result == ProcessChatFrom(c, initial)
  {
    var run, finalMessages := PrepareStream(Env(c), MAX_TOOL_CALLS, initial);
    if run.outcome.Raised? {
      return StreamResult([], Some(run.outcome.error), 0);
    }
    result := ServiceStream(finalMessages, OpenStream(c), Respond(c), |run.requests|);
  }

  /** The streaming chat raises only when the tool phase does; otherwise it yields at
      least one chunk, after at most four tool-phase requests and one fallback. */
  lemma ProcessChatShape(c: Clients, initial: seq<Message>)
    ensures var r := ProcessChatFrom(c, initial);
      var run := ToolLoop(Env(c), MAX_TOOL_CALLS, false, initial, 0, []);
      && (r.raised.Some? <==> run.outcome.Raised?)
      && (r.raised.None? ==> |r.chunks| >= 1 && run.outcome.ReadyToStream?)
      && |run.requests| <= MAX_TOOL_CALLS && r.fallbackRequests <= 1
  {
    var run := ToolLoop(Env(c), MAX_TOOL_CALLS, false, initial, 0, []);
    ToolLoopBounds(Env(c), MAX_TOOL_CALLS, false, initial);
    ToolLoopOutcome(Env(c), MAX_TOOL_CALLS, false, initial, 0, []);
    if !run.outcome.Raised? {
      ServiceStreamShape(run.messages, OpenStream(c), Respond(c), |run.requests|);
      var s := c.openStream(RagTools(c.settings), run.messages);
      if s.Ok? && Deltas(s.value.events) != [] {
        var ds := Deltas(s.value.events);
        assert |ServiceStreamSpec(run.messages, OpenStream(c), Respond(c), |run.requests|).chunks| >= |ds|;
      }
    }
  }
}
