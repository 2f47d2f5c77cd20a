# Flow-Builder core, modelled in Dafny

Flow-Builder is a FastAPI backend for knowledge-base chatbots and node flows. It has
these parts:

- Uploaded documents have their text extracted (PDF, DOCX, TXT).
- The text is cut into overlapping token windows, and each chunk is given a contextual
  summary. Chunk and summary are embedded together and stored as vector records.
- A retrieval-augmented chatbot lets the model call a vector-search tool (embedding,
  vector query, rerank, formatted blocks) up to four times before answering. The
  answer comes either whole or as a stream of text deltas.
- The standalone search client (`llm_call.py`, `create_RAG_tool.py`) does the same
  against any index, with a configurable system prompt that may be multilingual.
- Flows are graphs of input, chatbot, transform and output nodes. They are stored in a
  soft-deletable table, validated (connections, no cycles) and executed by repeated
  sweeps in dependency order.

Every outside service is a parameter of the model, given as a function or a value:
OpenAI chat, embeddings and Responses; Pinecone query and upsert; the Cohere reranker;
LlamaParse, PyPDF2 and python-docx; tiktoken; and the settings.

Modules:

- `Common`: option and result values, decimal printing, `join`, slicing and Python
  whitespace.
- `Documents`: the document row, a class whose status is updated in place.
- `Chunker`: the token windows.
- `Indexing`: the batch pipeline and the document status.
- `Retrieval`: the shaping shared by both search tools.
- `ChatbotService` / `RagTool`: the two `vector_search` variants.
- `Agent`: the message list, the tool-call loop and the stream finaliser shared by all
  six ask/chat functions.
- `LlmCall`: the prompt, the tool schema and the client closures.
- `FlowService`: the flow table as a class.
- `FlowValidation`: `validate_connections` and the DFS of `_has_cycles`, as a class over
  the search state.
- `FlowExecution`: `execute_flow`.
- `DocumentService`: extraction and `process_document`.

Where a description of the system and the code disagree, the model follows the code:

- Vector records of a batch are numbered by their position among the batch's
  survivors (`batch_start + k` for the k-th successful summary), not by the chunk's
  position in the document. Ids stay distinct within a document
  (`Indexing.DocumentWritesDistinctIds`).
- The standalone `vector_search` calls the reranker even when the query matched
  nothing. There is no "no results" sentence there.

## Model

| member | source | states |
|---|---|---|
| Common.NatToString | backend/app/services/knowledge_service.py:202 | the decimal text interpolated into vector ids and block ranks is non-empty and all digits |
| Common.ParseNatToString | backend/app/services/knowledge_service.py:202 | printing a number loses nothing: reading the digits back gives the number |
| Common.NatToStringInjective | backend/app/services/knowledge_service.py:202 | distinct numbers print differently |
| Common.IntToString | backend/app/services/knowledge_service.py:202 | `f"{i}"` of a Python int is non-empty |
| Common.IntToStringInjective | backend/app/services/knowledge_service.py:202 | distinct ints (document ids) print differently, which keeps vector ids of different documents apart |
| Common.PyRepr | backend/app/services/chatbot_service.py:92 | the `repr` of a key, as `str(KeyError(key))` shows it: it opens and closes with the same quote, double exactly when the key has a single quote and no double quote |
| Common.ReprPlain | backend/app/services/chatbot_service.py:92 | a key with no quote, backslash or unprintable character is shown as `'key'` |
| Common.ReprBodyRoundTrip | backend/app/services/chatbot_service.py:92 | undoing the escapes of a `repr` body gives the string back |
| Common.KeyErrorTextRoundTrip | backend/app/services/chatbot_service.py:92 | the missing key can be read back from the `KeyError` message |
| Common.ApostropheKey | backend/app/services/chatbot_service.py:92 | the key `it's` is shown as `"it's"` |
| Common.JoinContains | backend/app/services/document_service.py:128 | every part occurs in `sep.join(parts)` |
| Common.Take | backend/app/services/knowledge_service.py:206 | `s[:n]` has length min(len(s), n) and is a prefix of `s` |
| Documents.Document.constructor | backend/app/models/document.py:9-18 | a new row has no text, no error and status "uploaded" |
| Documents.Document.SetStatus | backend/app/services/knowledge_service.py:131 | the status becomes the given one and is logged; text and error are unchanged |
| Documents.Document.Fail | backend/app/services/knowledge_service.py:233-234 | the status becomes "error" and `error_message` becomes the message; the text is unchanged |
| Chunker.WindowIsLast | backend/app/services/knowledge_service.py:65-71 | the k-th window reaches the token count exactly when it is the last one, and every window starts inside the tokens |
| Chunker.ChunkWindows | backend/app/services/knowledge_service.py:59-73 | the windows `chunk_markdown` cuts, in closed form: window k starts at k·(max_tokens − overlap) and ends at the start plus max_tokens, or at the token count for the last; its shape is `Chunker.ChunkWindowsShape` |
| Chunker.ChunkWindowsShape | backend/app/services/knowledge_service.py:63-72 | no windows iff the text is empty; one window when there are at most max_tokens tokens; the first starts at 0 and the last ends at the token count; windows are 1..max_tokens long; all but the last are full; each next start is the previous end minus overlap, so starts strictly increase |
| Chunker.WindowEnds | backend/app/services/knowledge_service.py:63-71 | the empty-text, short-text, first-start and last-end cases of the window list |
| Chunker.WindowBounds | backend/app/services/knowledge_service.py:66-67 | each window is non-empty, within the tokens and at most max_tokens long |
| Chunker.WindowStep | backend/app/services/knowledge_service.py:70-72 | a window that is not the last is full, and the next starts overlap tokens before its end |
| Chunker.SharedTokens | backend/app/services/knowledge_service.py:67-72 | consecutive chunks share exactly `overlap` tokens: the last overlap tokens of window k are the first of window k+1 |
| Chunker.TwentyThousandTokens | backend/app/services/knowledge_service.py:59-73 | 20,000 tokens at 7,000/300 give windows [0,7000), [6700,13700) and [13400,20000) |
| Chunker.ChunkTexts | backend/app/services/knowledge_service.py:67-69 | one decoded chunk per window |
| Chunker.ChunkMarkdown | backend/app/services/knowledge_service.py:59-73 | the while loop yields exactly the closed-form windows, and each chunk is the decoding of its window's tokens |
| Indexing.SurvivorIndices | backend/app/services/knowledge_service.py:173-178 | every listed position holds a successful summary |
| Indexing.SurvivorIndicesExact | backend/app/services/knowledge_service.py:173-178 | the positions are exactly the successful ones, each once, in increasing order |
| Indexing.Survivors | backend/app/services/knowledge_service.py:170-178 | one survivor per successful summary |
| Indexing.SurvivorsStep | backend/app/services/knowledge_service.py:173-178 | one more outcome appends its chunk, paired with its own summary, exactly when it succeeded |
| Indexing.PartitionBatch | backend/app/services/knowledge_service.py:170-178 | the filtering loop keeps exactly the survivors, in order |
| Indexing.EmbeddingTexts | backend/app/services/knowledge_service.py:185-188 | survivor k is embedded as chunk + "\n\nContextual summary: " + summary |
| Indexing.BatchEmbeddings | backend/app/services/knowledge_service.py:100-109 | an empty input is answered with [] and no request; any other input is one request |
| Indexing.VectorIdInjective | backend/app/services/knowledge_service.py:202 | within a document, distinct chunk ids give distinct vector ids |
| Indexing.VectorIdsDistinctAcrossDocuments | backend/app/services/knowledge_service.py:202 | different document ids give different vector ids, whatever the chunk ids |
| Indexing.Records | backend/app/services/knowledge_service.py:198-214 | `zip` makes as many records as the shorter of survivors and embeddings |
| Indexing.RecordFields | backend/app/services/knowledge_service.py:199-214 | record k has id `doc_{d}_chunk_{batch_start+k}` and chunk id batch_start+k; its text is the first 1000 characters of its chunk, with its own summary, embedding and file name |
| Indexing.BuildRecords | backend/app/services/knowledge_service.py:198-214 | the loop builds exactly those records |
| Indexing.UpsertedPrefix | backend/app/services/knowledge_service.py:217-224 | what is stored is a prefix of whole 100-record slices: everything, or up to the first slice that raises |
| Indexing.UpsertedAll | backend/app/services/knowledge_service.py:219-221 | with every slice succeeding, every record is stored |
| Indexing.Upserted | backend/app/services/knowledge_service.py:217-224 | the records that the slice-by-slice upsert stores (`Indexing.UpsertedPrefix`, `Indexing.UpsertedAll`) |
| Indexing.UpsertSlices | backend/app/services/knowledge_service.py:217-224 | the slice loop stores exactly that prefix |
| Indexing.Batch | backend/app/services/knowledge_service.py:159-160 | a batch holds 1..5 chunks, unless it starts at the end |
| Indexing.BatchOutcomes | backend/app/services/knowledge_service.py:163-167 | the gathered outcomes are aligned with the batch's chunks by position |
| Indexing.BatchWritesIds | backend/app/services/knowledge_service.py:180-224 | a batch writes chunk ids from its start, strictly increasing, below start + batch size |
| Indexing.DocumentWritesIncreasing | backend/app/services/knowledge_service.py:159-224 | across the document the written chunk ids strictly increase, each record under its chunk's vector id |
| Indexing.DocumentWritesDistinctIds | backend/app/services/knowledge_service.py:159-224 | no two written records share a vector id |
| Indexing.DocumentsWriteDisjointIds | backend/app/services/knowledge_service.py:159-224 | indexing two different documents never writes the same vector id, so neither overwrites the other's records |
| Indexing.SurvivorNumbering | backend/app/services/knowledge_service.py:199-205 | when the first summary of a batch fails and the second succeeds, the second chunk is stored under the batch's first chunk id |
| Indexing.BatchWrites | backend/app/services/knowledge_service.py:160-224 | what one batch of five chunks writes: nothing without survivors or when embedding raises, otherwise the stored part of its records (`Indexing.BatchWritesIds`) |
| Indexing.ProcessBatch | backend/app/services/knowledge_service.py:160-224 | one batch writes nothing without survivors or when embedding raises (the loop continues); otherwise it writes the upserted part of its records |
| Indexing.DocumentWrites | backend/app/services/knowledge_service.py:159-224 | what the batch loop writes for a document, batch after batch (`Indexing.DocumentWritesIncreasing`, `Indexing.DocumentWritesDistinctIds`) |
| Indexing.IndexChunks | backend/app/services/knowledge_service.py:159-224 | batches start at 0, 5, 10, … and their writes are concatenated in order |
| Indexing.DocumentWritesStep | backend/app/services/knowledge_service.py:159-160 | the writes from an existing batch are that batch's writes followed by those of the next batches |
| Indexing.PrepareDocumentChunks | backend/app/services/knowledge_service.py:111-235 | a missing document or one without text writes nothing and keeps its status; otherwise the status is "indexing", then "indexed" after all batches, or "error" with the setup failure's message |
| Indexing.IndexDocument | backend/app/services/knowledge_service.py:237-259 | a missing OpenAI key, then a missing Pinecone key, marks the document "error" with "<KEY> is not set" and writes nothing; otherwise it is the preparation above |
| Retrieval.Candidates | backend/app/services/chatbot_service.py:64-75 | one reranking text per match, in match order |
| Retrieval.CandidateMapKeys | backend/app/services/chatbot_service.py:76 | the dictionary's keys are exactly the candidate texts |
| Retrieval.CandidateMapLastWins | backend/app/services/chatbot_service.py:76 | a text maps to the last match that produced it |
| Retrieval.CandidateMap | backend/app/services/chatbot_service.py:64-76 | `doc_mapping`: each candidate text to its match, later matches overwriting earlier ones (`Retrieval.CandidateMapKeys`, `Retrieval.CandidateMapLastWins`) |
| Retrieval.CollectCandidates | backend/app/services/chatbot_service.py:64-76 | the loop fills `documents` and `doc_mapping` as above |
| Retrieval.ResolveAllPresent | backend/app/services/chatbot_service.py:90-92 | when every reranked text is a key, item k resolves to the match stored for its text |
| Retrieval.ResolveFirstMissing | backend/app/services/chatbot_service.py:92 | the first reranked text that is not a key raises its `KeyError` |
| Retrieval.Resolve | backend/app/services/chatbot_service.py:91-94 | `doc_mapping[reranked.document.text]` for each reranked item in order, or the `KeyError` of the first missing text (`Retrieval.ResolveAllPresent`, `Retrieval.ResolveFirstMissing`) |
| Retrieval.FormatResults | backend/app/services/chatbot_service.py:89-111 | the loop formats the resolved matches in rerank order, or stops at the first missing key |
| Retrieval.SharedTextReportsLast | create_RAG_tool.py:87-102 | two matches sharing a reranking text are both reported as the second |
| ChatbotService.SearchText | backend/app/services/chatbot_service.py:37-120 | the text `vector_search` returns, error strings included; its cases are `ChatbotService.SearchTextCases` |
| ChatbotService.VectorSearch | backend/app/services/chatbot_service.py:37-120 | the method returns the specified search text, and every exception becomes a string |
| ChatbotService.SearchTextCases | backend/app/services/chatbot_service.py:78-120 | a failed query or rerank gives "Error performing search: " + message; no matches give the fixed sentence; otherwise blocks joined by "\n", block k built from the match the dictionary holds for reranked item k |
| ChatbotService.SearchTextMissing | backend/app/services/chatbot_service.py:92-120 | a reranked text no match produced gives the error prefix followed by the `repr` of that key |
| ChatbotService.MappingLastWins | backend/app/services/chatbot_service.py:72-76 | a match's candidate is its summary, else its original text; keys are those candidates, each mapped to the last match with it |
| ChatbotService.BlockNumbering | backend/app/services/chatbot_service.py:105-109 | block i opens with i+1 in decimal (which reads back as i+1) and a blank line |
| ChatbotService.BlockTruncatesContent | backend/app/services/chatbot_service.py:105-109 | a block ends with "Content: ", at most the first 1000 characters of original_text (a prefix of it) and "...\n" |
| ChatbotService.RagTools | backend/app/services/chatbot_service.py:122-140 | one strict, well-formed `retrieve_knowledge` tool with one required `query`, whose description names the index; every request of the service carries it |
| ChatbotService.SystemPrompt | backend/app/services/chatbot_service.py:142-157 | the service's fixed system prompt, which names the assistant |
| ChatbotService.ChatRunFromShape | backend/app/services/chatbot_service.py:297-347 | `chat` answers or raises and never reaches the unassigned-response fallback; at most 4 searches and 5 requests, the first sent the initial messages |
| ChatbotService.Chat | backend/app/services/chatbot_service.py:271-347 | `chat(history, query)` returns the loop's answer from the default prompt, the last eight turns and the query |
| ChatbotService.ChatWith | backend/app/services/chatbot_service.py:297-347 | the loop from given initial messages |
| ChatbotService.ProcessChat | backend/app/services/chatbot_service.py:159-269 | the streaming chat yields the specified chunks |
| ChatbotService.ProcessChatWith | backend/app/services/chatbot_service.py:189-269 | the tool phase and the stream from given initial messages |
| ChatbotService.ProcessChatShape | backend/app/services/chatbot_service.py:189-269 | the streaming chat raises only when the tool phase does; otherwise it yields at least one chunk, after at most 4 tool-phase requests and at most one fallback |
| RagTool.SearchText | create_RAG_tool.py:38-129 | the text the tool's `vector_search` returns, error strings included; its cases are `RagTool.SearchTextCases` |
| RagTool.VectorSearch | create_RAG_tool.py:38-129 | the method returns the specified search text |
| RagTool.SearchTextCases | create_RAG_tool.py:57-129 | a failed query or rerank gives the error prefix; an empty reranking gives ""; otherwise the preview-field blocks joined by "\n", block k from the match the dictionary holds for reranked item k |
| RagTool.SearchTextMissing | create_RAG_tool.py:100-129 | a reranked text no match produced gives the error prefix followed by the `repr` of that key |
| RagTool.MissingPreviewsCollapse | create_RAG_tool.py:82-87 | matches without a summary preview all rerank as "", and every item is reported as the last of them |
| RagTool.BlockQuotesPreview | create_RAG_tool.py:111-119 | a block carries the stored original_text preview verbatim between double quotes, not truncated |
| RagTool.ScalingUpSearch | create_RAG_tool.py:132-141 | `scaling_up_search` is the search over "scaling-up"/"scaling-up-demo" with top_k 9 and top_reranked 4 |
| Agent.QueryTool | llm_call.py:51-64 | a strict, well-formed function schema with the given name, description and a single required string parameter "query" |
| Agent.RecentTurns | backend/app/services/chatbot_service.py:178 | `history[-8:]` is the last min(8, len) turns |
| Agent.TurnMessagesAt | backend/app/services/chatbot_service.py:178-180 | turn j contributes a user message at 2j and an assistant message at 2j+1 |
| Agent.InitialMessagesShape | backend/app/services/chatbot_service.py:175-183 | the list is the system message, the last min(8, len) turns as user/assistant pairs in order, then the query: 2 + 2·min(8, len) messages |
| Agent.BuildMessages | backend/app/services/chatbot_service.py:175-183 | the appending loop builds exactly that list |
| Agent.FirstCall | backend/app/services/chatbot_service.py:201 | the first `function_call` item of the output, None exactly when there is none |
| Agent.SendKeepsState | backend/app/services/chatbot_service.py:302-306 | a request sees the messages as they then stand |
| Agent.AppendKeepsState | backend/app/services/chatbot_service.py:320-332 | an executed search appends a function_call / function_call_output pair with the same call id |
| Agent.ToolLoopKeepsState | backend/app/services/chatbot_service.py:300-341 | the initial messages are never changed; every search appends a matching pair; every request was sent the history so far; at most one request more than searches |
| Agent.SearchKeepsState | backend/app/services/chatbot_service.py:314-341 | the step of that invariant where the model asked for a search |
| Agent.ToolLoop | backend/app/services/chatbot_service.py:186-233 | the function-calling loop: search while the model asks for a call and the limit allows, then a closing request or a stop ready to stream; its bounds and outcomes are `Agent.ToolLoopBounds` and `Agent.ToolLoopOutcome` |
| Agent.ToolLoopBounds | backend/app/services/chatbot_service.py:192-233 | at most max_tool_calls searches and at most one more request; no closing request keeps requests within the limit |
| Agent.ToolLoopOutcome | backend/app/services/chatbot_service.py:300-345 | with a positive limit the unassigned fallback is unreachable; with the closing request the loop always answers or raises; without it it is ready to stream or raised |
| Agent.NoRequestsWithoutBudget | llm_call.py:177-180 | with max_tool_calls <= 0 no request is made, and the non-streaming variant reads the unbound response |
| Agent.FirstResponseAnswers | backend/app/services/chatbot_service.py:308-313 | a first response without a function call is the answer after exactly one request |
| Agent.CallThenAnswer | backend/app/services/chatbot_service.py:300-341 | a tool call followed by a text response means one search and two requests, and the second text is the answer |
| Agent.AlwaysCallingModel | backend/app/services/chatbot_service.py:332-341 | a model that always calls the tool gets exactly max_tool_calls searches, and with the closing request exactly max+1 requests, the last one's text being the answer |
| Agent.RunToolLoop | backend/app/services/chatbot_service.py:297-345 | the non-streaming while loop computes the specified run |
| Agent.PrepareStream | backend/app/services/chatbot_service.py:189-233 | the streaming tool phase runs the loop without closing request, and `final_messages` equals `messages` |
| Agent.DeltasAppend | backend/app/services/chatbot_service.py:246-256 | extraction works event by event: the chunks of concatenated events are the concatenated chunks |
| Agent.DeltasEmpty | backend/app/services/chatbot_service.py:246-259 | nothing is yielded exactly when no event carries text |
| Agent.StreamDeltas | backend/app/services/chatbot_service.py:244-256 | the `async for` yields the delta events' text in arrival order, and `content_received` is true iff something was yielded |
| Agent.ServiceStreamSpec | backend/app/services/chatbot_service.py:236-269 | the chunks of the service's streaming stage, every failure caught as one chunk (`Agent.ServiceStreamShape`) |
| Agent.ServiceStream | backend/app/services/chatbot_service.py:236-269 | the streaming stage yields the specified chunks |
| Agent.ServiceStreamShape | backend/app/services/chatbot_service.py:236-269 | it never raises; the deltas come first, at most one chunk follows, and with nothing streamed exactly one chunk follows exactly one fallback request |
| Agent.RetryStreamSpec | llm_call.py:321-369 | the chunks of the client's streaming stage with its fallback requests (`Agent.RetryStreamShape`) |
| Agent.RetryStream | llm_call.py:321-369 | the client's streaming stage yields the specified chunks |
| Agent.RetryStreamShape | llm_call.py:321-369 | at most two fallback requests; the streamed deltas come first; with everything succeeding and nothing streamed, one chunk after one request |
| LlmCall.SystemPrompt | llm_call.py:66-107 | the system prompt: identity, instructions and the language section (`LlmCall.LanguageSectionCases`, `LlmCall.TranslationUnlessEnglish`) |
| LlmCall.ReplyRules | llm_call.py:89 | one "For L user queries, you MUST reply in L." per language, in order |
| LlmCall.LanguageSectionCases | llm_call.py:84-93 | not multilingual, or at most one language, gives the fixed English-only section; otherwise the section opens with the sentence naming the ", and"-joined list |
| LlmCall.TranslationUnlessEnglish | llm_call.py:90-91 | the translation sentence ends the section iff "English" is not among the languages |
| LlmCall.EveryLanguageHasRule | llm_call.py:89 | every language's reply rule appears in the multilingual section |
| LlmCall.EnglishAndSpanish | llm_call.py:86 | the list join gives "English, and Spanish" and "English, Spanish, and Greek" |
| LlmCall.VectorSearchTool | llm_call.py:51-64 | a strict tool with the given name and description and one required string `query` |
| LlmCall.CreateClient | llm_call.py:109-160 | a client holds one well-formed tool with the given name, the given index and namespace, and the given tool-call limit |
| LlmCall.DefaultClientEnglishOnly | llm_call.py:109-122 | with the default arguments the prompt ends in the English-only section, the limit is 4 and the search uses top_k 9, top_reranked 4 and "text-embedding-3-small" |
| LlmCall.AskVectorSearch | llm_call.py:162-237 | `ask_vector_search` returns the loop's answer over the client's prompt, tools and search |
| LlmCall.AskOutcomes | llm_call.py:177-237 | a positive limit gives an answer or a request's error after at most max searches and max+1 requests; a limit <= 0 makes no request and raises the unbound-variable error |
| LlmCall.AskVectorSearchStream | llm_call.py:239-369 | the streaming ask yields the specified chunks |
| LlmCall.AskStreamShape | llm_call.py:255-369 | at most max tool-phase requests and two fallbacks; after a quiet tool phase the stream's deltas come first |
| LlmCall.AskScalingUp | llm_call.py:411-478 | `ask_scaling_up` is the ask of the fixed Scaling Up client (its tools, prompt, limit 4 and `scaling_up_search`) |
| LlmCall.AskScalingUpStream | llm_call.py:480-602 | `ask_scaling_up_stream` is the streaming ask of that client |
| LlmCall.ScalingUpAnswers | llm_call.py:430-478 | the Scaling Up ask always answers or raises, never reaching the fallback at line 475 |
| LlmCall.ScalingUpSearchBound | llm_call.py:409-461 | it runs at most four searches |
| FlowService.ValidateFlowConfig | backend/app/services/flow_service.py:76-105 | true iff the config is an object whose "nodes" and "edges" are lists, every node has "id" and "type", and every edge has "id", "source" and "target" |
| FlowService.Assignments | backend/app/services/flow_service.py:52 | an update sets at most the four schema fields |
| FlowService.AssignAllAppend | backend/app/services/flow_service.py:53-54 | the setattr loop applies the items one after another |
| FlowService.AssignmentsUpdate | backend/app/services/flow_service.py:52-54 | applying the set fields changes exactly those fields and keeps the rest, the id and flow_data included |
| FlowService.AssignAllSplit | backend/app/services/flow_service.py:53-54 | applying a list in two parts is applying it whole |
| FlowService.ActiveRows | backend/app/services/flow_service.py:16 | the listing filter keeps exactly the active rows |
| FlowService.FindActive | backend/app/services/flow_service.py:22 | the lookup finds an active row with the id, or there is none |
| FlowService.Page | backend/app/services/flow_service.py:16 | `.offset(skip).limit(limit)` skips `skip` rows and returns at most `limit` of the rest, in order |
| FlowService.FindNumbered | backend/app/services/flow_service.py:18-22 | with autoincrement ids the lookup is row id-1, when it is active |
| FlowService.FlowTable.constructor | backend/app/services/flow_service.py:12-16 | an empty table |
| FlowService.FlowTable.GetFlows | backend/app/services/flow_service.py:12-16 | `get_flows` returns only active rows: the active rows from `skip` on, at most `limit` of them |
| FlowService.FlowTable.GetFlowById | backend/app/services/flow_service.py:18-22 | `get_flow_by_id` finds the row with the id only while it is active |
| FlowService.FlowTable.CreateFlow | backend/app/services/flow_service.py:24-40 | a new active row with the next id, holding name, description and flow_data as given, which the lookup then finds |
| FlowService.FlowTable.UpdateFlow | backend/app/services/flow_service.py:42-60 | None and no change for a missing or inactive id; otherwise exactly the set fields change |
| FlowService.FlowTable.DeleteFlow | backend/app/services/flow_service.py:62-74 | an active flow has `is_active` cleared and True is returned, the row staying; otherwise False and no change; afterwards the lookup finds nothing |
| FlowService.DeleteHidesFromListing | backend/app/services/flow_service.py:62-74 | after a deletion the listing is the previous listing without the deleted row |
| FlowService.ActiveRowsAppend | backend/app/services/flow_service.py:16 | the active filter distributes over concatenation |
| FlowValidation.Targets | backend/app/services/flow_execution_service.py:99-102 | `adjacency[u]` holds exactly the targets of links leaving u |
| FlowValidation.RankedAcyclic | backend/app/services/flow_execution_service.py:83-127 | ranks that fall along every link rule out a cycle |
| FlowValidation.StackCycle | backend/app/services/flow_execution_service.py:116-117 | a link from the top of the recursion stack back onto it closes a cycle |
| FlowValidation.BuildAdjacency | backend/app/services/flow_execution_service.py:95-102 | one list per node, holding exactly that node's targets |
| FlowValidation.Push | backend/app/services/flow_execution_service.py:109-110 | entering a new node linked from the stack top keeps the search invariant |
| FlowValidation.Pop | backend/app/services/flow_execution_service.py:119-120 | leaving a node whose links all lead to finished nodes keeps it |
| FlowValidation.CycleSearch.constructor | backend/app/services/flow_execution_service.py:105-106 | an empty `visited` and `rec_stack` |
| FlowValidation.CycleSearch.Dfs | backend/app/services/flow_execution_service.py:108-120 | True only when the links have a cycle; otherwise the node and everything reached from it finish, the stack is as before, and `visited` only grows |
| FlowValidation.HasCycles | backend/app/services/flow_execution_service.py:83-127 | `_has_cycles` is true iff the source-to-target graph has a directed cycle |
| FlowValidation.FirstIndex | backend/app/services/flow_execution_service.py:46-75 | the first element of the list that fails a check |
| FlowValidation.NodeIds | backend/app/services/flow_execution_service.py:45-49 | the keys of `node_lookup` are the nodes' ids |
| FlowValidation.IdList | backend/app/services/flow_execution_service.py:122-123 | the node ids in node order |
| FlowValidation.Links | backend/app/services/flow_execution_service.py:99-102 | the (source, target) pair of every edge, in order |
| FlowValidation.GraphCheckMissingId | backend/app/services/flow_execution_service.py:46-48 | the first node without "id" decides the message |
| FlowValidation.GraphCheckBadEdge | backend/app/services/flow_execution_service.py:52-60 | then the first edge missing an end or naming an unknown source or target decides it |
| FlowValidation.GraphCheckBadConnection | backend/app/services/flow_execution_service.py:63-75 | then the first input node without outgoing edges, or output node without incoming edges, decides it |
| FlowValidation.GraphCheckCycles | backend/app/services/flow_execution_service.py:77-81 | once all those pass, the result is the cycles error iff there is a cycle, else (True, "") |
| FlowValidation.GraphCheck | backend/app/services/flow_execution_service.py:44-81 | the verdict and message of the per-node, per-edge, connection and cycle checks, in source order (`FlowValidation.GraphCheckValid`) |
| FlowValidation.GraphCheckValid | backend/app/services/flow_execution_service.py:44-81 | a graph passes exactly when every node has an id, every edge joins two existing nodes, inputs feed and outputs are fed, and there is no cycle; it then carries "" |
| FlowValidation.LinksWithinIds | backend/app/services/flow_execution_service.py:51-60 | sound edges join nodes of the id list |
| FlowValidation.ConnectionCheck | backend/app/services/flow_execution_service.py:27-81 | what `validate_connections` returns, check by check |
| FlowValidation.ValidateConnections | backend/app/services/flow_execution_service.py:27-81 | `validate_connections` returns the specified verdict and message, check by check |
| FlowValidation.CheckConnections | backend/app/services/flow_execution_service.py:62-81 | the connection loop followed by the cycle search |
| FlowExecution.Vertices | backend/app/services/flow_execution_service.py:152 | one vertex per node, with its id, type and data |
| FlowExecution.VertexIds | backend/app/services/flow_execution_service.py:164-166 | the set of node ids |
| FlowExecution.Sources | backend/app/services/flow_execution_service.py:168-172 | `incoming_edges[v]` lists exactly the sources of the edges into v |
| FlowExecution.InputValuesKeys | backend/app/services/flow_execution_service.py:175-183 | the initial values are keyed by exactly the input nodes' ids |
| FlowExecution.InputValuesLast | backend/app/services/flow_execution_service.py:181-183 | an input node holds `input_data.get(input_key or "default_input", "")`; the last node with an id wins |
| FlowExecution.OutputsKeys | backend/app/services/flow_execution_service.py:241-246 | the result is keyed by exactly the output nodes' output keys (default "default_output") |
| FlowExecution.OutputsLast | backend/app/services/flow_execution_service.py:244-246 | an output key holds its node's value, or ""; the last node with the key wins |
| FlowExecution.Step | backend/app/services/flow_execution_service.py:198-234 | processing one ready node by its type: input keeps its value, output and transform copy the first source's value when there is a source (a KeyError when that source has no value), chatbot asks the chatbot, any other type is "Unsupported node type: …" |
| FlowExecution.ChatValue | backend/app/services/flow_execution_service.py:211-225 | the chatbot node's value: the answer, "No input provided to chatbot node" without a source, or "Error: " and the text of the error raised, a missing source value included |
| FlowExecution.Visit | backend/app/services/flow_execution_service.py:191-238 | a visit marks at most its own node, only once all its sources are processed, and always marks a ready unprocessed node unless it raises |
| FlowExecution.Sweep | backend/app/services/flow_execution_service.py:191-238 | a sweep only adds node ids to the processed set |
| FlowExecution.SweepKeepsError | backend/app/services/flow_execution_service.py:191-238 | an error raised part-way through a sweep is the error of the whole sweep |
| FlowExecution.BuildIncoming | backend/app/services/flow_execution_service.py:160-172 | one list per node, holding exactly the sources of its incoming edges |
| FlowExecution.SweepOnce | backend/app/services/flow_execution_service.py:191-238 | the `for` loop computes the specified sweep |
| FlowExecution.Sweeps | backend/app/services/flow_execution_service.py:187-238 | repeated sweeps until every node is processed, an error or a sweep without progress (`FlowExecution.NeverStalls`, `FlowExecution.AcyclicRunsEnd`) |
| FlowExecution.SweepAll | backend/app/services/flow_execution_service.py:187-238 | the `while` loop gives the specified sweeps, reporting a sweep that makes no progress (forever in the source) |
| FlowExecution.Evaluate | backend/app/services/flow_execution_service.py:175-248 | a validated flow's run from the input values to the output dictionary |
| FlowExecution.Run | backend/app/services/flow_execution_service.py:151-248 | after validation, the edge lists, input values, sweeps and outputs give the specified result |
| FlowExecution.ExecuteSpec | backend/app/services/flow_execution_service.py:129-248 | what `execute_flow` does with the flow it found: the not-found and invalid-config errors, or the run |
| FlowExecution.ExecuteFlow | backend/app/services/flow_execution_service.py:129-248 | a missing or inactive flow raises ValueError "Flow with ID … not found or not active"; an invalid one raises ValueError with the validation message; otherwise the run |
| FlowExecution.IdsSnoc | backend/app/services/flow_execution_service.py:190 | the ids of a node list with one more node |
| FlowExecution.DistinctSnoc | backend/app/services/flow_execution_service.py:190 | distinct ids after one more node iff distinct before and the new id is new |
| FlowExecution.IdsCount | backend/app/services/flow_execution_service.py:190 | there are at most as many ids as nodes, and exactly as many iff they are distinct, which is what `len(processed) < len(nodes)` compares |
| FlowExecution.SweepReaches | backend/app/services/flow_execution_service.py:192-238 | an unprocessed node whose sources are all processed gets processed in the next sweep, unless the sweep raises |
| FlowExecution.BackWalk | backend/app/services/flow_execution_service.py:196 | when every node of a set has a source inside it, there are arbitrarily long backward walks inside the set |
| FlowExecution.Pigeonhole | backend/app/services/flow_execution_service.py:190 | a walk longer than the set of its nodes repeats a node |
| FlowExecution.RepeatCycle | backend/app/services/flow_execution_service.py:186 | a backward walk that repeats a node is a cycle |
| FlowExecution.ReadyExists | backend/app/services/flow_execution_service.py:186-196 | without cycles some unprocessed node has all its sources processed |
| FlowExecution.NeverStalls | backend/app/services/flow_execution_service.py:186-238 | with distinct ids, known sources and no cycle, every sweep before the last makes progress |
| FlowExecution.DuplicatesNeverFinish | backend/app/services/flow_execution_service.py:190 | with duplicate ids the processed set stays smaller than the node list, so the loop never finishes |
| FlowExecution.AcyclicRunsEnd | backend/app/services/flow_execution_service.py:186-248 | a run of an acyclic flow with distinct ids completes or raises |
| FlowExecution.DuplicateIdsNeverComplete | backend/app/services/flow_execution_service.py:187-248 | a run with duplicate ids raises or never ends |
| FlowExecution.ValidatedFlowsEnd | backend/app/services/flow_execution_service.py:129-248 | `execute_flow` on a flow with distinct node ids never loops forever |
| FlowExecution.DuplicateNodesNeverComplete | backend/app/services/flow_execution_service.py:129-248 | a flow with two nodes of the same id never completes, even when validation accepts it |
| FlowExecution.ChatPipeline | backend/app/services/flow_execution_service.py:175-248 | input → chatbot → output gives {output_key: the chatbot's answer to the input value}, or "Error: …" when the chatbot raises |
| FlowExecution.FullSweepFinishes | backend/app/services/flow_execution_service.py:190 | a sweep that leaves as many nodes processed as there are nodes ends the loop |
| FlowExecution.PipelineEnds | backend/app/services/flow_execution_service.py:175-183 | the pipeline's input values and output dictionary |
| FlowExecution.PipelineSources | backend/app/services/flow_execution_service.py:168-172 | the pipeline's incoming-edge lists |
| FlowExecution.PipelineSweep | backend/app/services/flow_execution_service.py:191-238 | the first sweep processes all three nodes, the chatbot and output nodes holding the answer |
| FlowExecution.PipelineVisits | backend/app/services/flow_execution_service.py:196-238 | each node of the pipeline is ready in its turn |
| DocumentService.FallbackStops | backend/app/services/document_service.py:112-117 | once a page fails, the rest of the loop does not run and that page's error is raised |
| DocumentService.PageTexts | backend/app/services/document_service.py:112-114 | the texts of the first n pages, in order |
| DocumentService.FallbackJoin | backend/app/services/document_service.py:109-115 | with every page extracting, the fallback is the pages joined by page breaks plus a page break after the last |
| DocumentService.FallbackAddsBreak | backend/app/services/document_service.py:99-115 | on the same pages, the fallback is the main PDF path's text plus one trailing page break |
| DocumentService.FallbackFirstFailure | backend/app/services/document_service.py:112-117 | the first failing page's error is raised as "Failed to extract text from PDF: …" |
| DocumentService.FallbackAllOk | backend/app/services/document_service.py:112-115 | pages that all extract make the loop succeed |
| DocumentService.FallbackText | backend/app/services/document_service.py:108-117 | the PyPDF2 fallback's text, or its failure reported as a PDF extraction failure (`DocumentService.FallbackJoin`, `DocumentService.FallbackFirstFailure`) |
| DocumentService.PdfFallback | backend/app/services/document_service.py:108-117 | the PyPDF2 loop accumulates the specified fallback text |
| DocumentService.PdfText | backend/app/services/document_service.py:75-117 | `extract_text_from_pdf`: a missing LlamaParse key raises, LlamaParse pages are joined with page breaks, and a LlamaParse failure falls back to PyPDF2 |
| DocumentService.ExtractPdf | backend/app/services/document_service.py:75-117 | no LlamaParse key raises before the try, with no fallback; the parsed pages joined with page breaks; a LlamaParse failure falls back to PyPDF2 |
| DocumentService.NonBlank | backend/app/services/document_service.py:128 | the filter keeps no more paragraphs than it is given |
| DocumentService.NonBlankMembers | backend/app/services/document_service.py:128 | exactly the paragraphs whose `strip()` is non-empty are kept |
| DocumentService.NonBlankAppend | backend/app/services/document_service.py:128 | the filter keeps order: it distributes over concatenation |
| DocumentService.DocxText | backend/app/services/document_service.py:119-131 | `extract_text_from_docx`: the non-blank paragraphs joined by newlines, or a read failure wrapped as "Failed to extract text from DOCX: …" (`DocumentService.DocxKeepsText`) |
| DocumentService.DocxKeepsText | backend/app/services/document_service.py:119-131 | every non-blank paragraph appears in the DOCX text |
| DocumentService.TxtText | backend/app/services/document_service.py:133-145 | `extract_text_from_txt`: the UTF-8 text, or on a decoding error the Latin-1 text with its error unwrapped; any other error is wrapped as "Failed to extract text from TXT: …" |
| DocumentService.ExtractText | backend/app/services/document_service.py:62-73 | a type other than pdf, docx and txt raises ValueError "Unsupported file type: …" |
| DocumentService.ExtractReadsOnlyItsFile | backend/app/services/document_service.py:62-145 | each type's result depends only on its own library's reads; a PDF without a LlamaParse key fails whatever the file holds |
| DocumentService.Extract | backend/app/services/document_service.py:62-73 | dispatch on the file type |
| DocumentService.ProcessDocument | backend/app/services/document_service.py:17-57 | a missing document changes nothing and schedules nothing; otherwise "processing", then either the text and "processed" (indexing scheduled iff both keys are set) or "error" with the exception's text, the old text kept and no indexing |

## Left out

- Network and foreign calls are parameters: OpenAI chat, embeddings and Responses;
  Pinecone query, upsert and index creation; the Cohere rerank; LlamaParse, PyPDF2,
  python-docx; tiktoken's encoding and decoding; file reads. Embeddings are opaque.
  The model names and the temperature sent to OpenAI, and the list of models, are
  arguments of those calls and are not modelled.
- Concurrency is not modelled: `asyncio.gather`, the semaphores, the `backoff`
  retries, `nest_asyncio` and the event loop. Summaries are a per-chunk outcome
  aligned by position. `asyncio.create_task(index_document(...))` is modelled as the
  returned flag `scheduleIndexing`.
- The database is not modelled: sessions, commits and `refresh`. The flow table is a
  class over a sequence of rows with autoincrement ids. The `get_flows` order is the
  insertion order. Timestamps, `content_format`, `original_size` and `file_path` are
  left out.
- Logging, `print` and `debug_print` are left out, and so is the command-line chat
  loop of `llm_call.py` (lines 608-631). The `ask_iaspis` aliases are plain
  assignments.
- `pdf_to_md_async.py` and the HTTP routers are not part of this model.
- `validate_connections` and `execute_flow` on a configuration that is not an object,
  or whose "nodes" or "edges" is not a list: the model requires a checkable
  configuration. The Python code would raise a `TypeError` or iterate over the value.
- `execute_flow` builds `outgoing_edges` and `node_lookup` but never reads them. They
  are not modelled. A `while` loop that never ends (duplicate ids, or a cycle when
  validation is bypassed) is represented by the outcome `Diverges`.
- The chatbot node of a flow calls an oracle `string -> Result<string>`. The service's
  own `chat([], text)` is one instance of it (`ChatbotService.ChatAnswer`).
- The pydantic schema limits of the request bodies are not modelled.
- `DocumentService.ExtractPdf` does not model the `ImportError` of `import PyPDF2`
  (line 106); the fallback is always importable.
- Where `prepare_document_chunks` can raise inside its try block (client creation,
  index creation, chunking), one outcome stands for all of them:
  `Indexing.PrepareDocumentChunks` takes that setup outcome as a parameter. An
  exception from encoding or decoding the text is not modelled separately.
- The tool loops treat `json.loads(arguments).get("query")` as one parser oracle. An
  argument string that is not a JSON object raises inside the loop.
- `Chunker.ChunkMarkdown` requires `overlap < max_tokens`, and its `nat` overlap leaves
  out negative overlaps. With `overlap >= max_tokens`, a text of more than max_tokens
  tokens makes the source loop stop advancing, so it never ends. A shorter text still
  gives its single chunk, because the `end == total_tokens` break comes first. A
  negative overlap skips tokens between chunks and still ends; the model does not
  cover it. The call at `backend/app/services/knowledge_service.py:155` uses the
  defaults 7000/300.
- `FlowService.ValidateFlowConfig`, `FlowValidation.ValidateConnections`,
  `FlowValidation.HasCycles` and `FlowExecution.ExecuteFlow` see the flow JSON only
  as objects whose members are strings or absent, and every element of "nodes" and
  "edges" as an object. The model therefore leaves out several behaviours:
  - a `null` or numeric member, such as `{"id": null, "type": "x"}`, which passes the
    key-presence test at `backend/app/services/flow_service.py:97`;
  - ints comparing as ints;
  - `"data": null`, which raises `AttributeError` at
    `backend/app/services/flow_execution_service.py:182`;
  - a string element of "nodes", for which the `in` test is a substring test.
- `FlowValidation.HasCycles`: does not model Python's recursion limit. The recursive
  `dfs_cycle` (`backend/app/services/flow_execution_service.py:108-124`) raises
  `RecursionError` on a path of about 1000 nested calls, but the model always returns.
- `Common.KeyErrorText`: models `repr` of the key for the quote choice, the backslash
  and quote escapes, `\t`, `\n` and `\r`, and the `\xhh` form of the unprintable
  characters below U+0100. Python's other unprintable characters, such as U+2028 and
  unassigned code points, which it shows as `\uXXXX` or `\UXXXXXXXX`, are shown
  unescaped. This affects `Retrieval.Resolve`, `Retrieval.ResolveFirstMissing`,
  `ChatbotService.SearchTextMissing`, `RagTool.SearchTextMissing` and
  `FlowExecution.ChatValue`.
