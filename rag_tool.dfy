/** The standalone vector search tool (`create_RAG_tool`): a search over any index and
    namespace that reranks the matches by their contextual-summary preview and
    formats the reranked matches from their preview metadata. Unlike the chatbot
    service it reranks even when the query found nothing. */
module RagTool {
  import opened Common
  import opened Retrieval

  const DEFAULT_TOP_K: int := 9
  const DEFAULT_TOP_RERANKED: int := 4
  const DEFAULT_EMBEDDING_MODEL := "text-embedding-3-small"

  /** `vector_search(query, index_name, namespace)` with the defaults for the rest. */
  function DefaultTarget(indexName: string, namespace: string): SearchTarget {
    SearchTarget(indexName, namespace, DEFAULT_TOP_K, DEFAULT_TOP_RERANKED, DEFAULT_EMBEDDING_MODEL)
  }

  /** The reranking text of a match: its contextual-summary preview, or "". */
  function Candidate(m: Match): string {
    Get(m.metadata, "contextual_summary_preview", "")
  }

  /** The block of the i-th reranked match (`i` counted from 0). */
  function Block(i: nat, m: Match): string {
    NatToString(i + 1) + "\n\n" + BlockFields(m)
  }

  function BlockFields(m: Match): string {
    "##ID: " + m.id + "\n"
    + QuotedField("original_text", Get(m.metadata, "original_text_preview", ""))
    + QuotedField("contextual_summary", Get(m.metadata, "contextual_summary_preview", ""))
    + QuotedField("source_file", Get(m.metadata, "source_file", ""))
  }

  /** `##name: "value"` on a line of its own. */
  function QuotedField(name: string, value: string): string {
    "##" + name + ": \"" + value + "\"\n"
  }

  /** What `vector_search` returns; every exception inside it becomes a string. */
  function SearchText(query: Option<string>, target: SearchTarget, backend: Backend): string {
    match backend.query(target, query)
    case Err(e) => SearchError(e)
    case Ok(matches) =>
      match backend.rerank(query, Candidates(matches, Candidate), target.topReranked)
      case Err(e) => SearchError(e)
      case Ok(ranked) =>
        match Blocks(ranked, CandidateMap(matches, Candidate), Block)
        case Err(e) => SearchError(e)
        case Ok(blocks) => Join("\n", blocks)
  }

  method VectorSearch(query: Option<string>, target: SearchTarget, backend: Backend) returns (text: string)
    ensures text == SearchText(query, target, backend)
  {
    var response := backend.query(target, query);
    if response.Err? {
      return SearchError(response.error);
    }
    var documents, mapping := CollectCandidates(response.value, Candidate);
    var reranked := backend.rerank(query, documents, target.topReranked);
    if reranked.Err? {
      return SearchError(reranked.error);
    }
    var results := FormatResults(reranked.value, mapping, Block);
    if results.Err? {
      return SearchError(results.error);
    }
    text := Join("\n", results.value);
  }

  /** The search's answers, case by case: a failed query or rerank is reported with the
      error prefix, an empty reranking gives the empty string, and when every reranked
      text is a key of the dictionary the k-th block is formatted from the match that
      dictionary holds for the k-th item's text. */
  lemma SearchTextCases(query: Option<string>, target: SearchTarget, backend: Backend)
    ensures backend.query(target, query).Err? ==>
      SearchText(query, target, backend) == SearchError(backend.query(target, query).error)
    ensures backend.query(target, query).Ok? ==>
      var matches := backend.query(target, query).value;
      var ranked := backend.rerank(query, Candidates(matches, Candidate), target.topReranked);
      var mapping := CandidateMap(matches, Candidate);
      && (ranked.Err? ==> SearchText(query, target, backend) == SearchError(ranked.error))
      && (ranked == Ok([]) ==> SearchText(query, target, backend) == "")
      && (ranked.Ok? && (forall k :: 0 <= k < |ranked.value| ==> ranked.value[k].text in mapping) ==>
            SearchText(query, target, backend)
            == Join("\n", seq(|ranked.value|, k requires 0 <= k < |ranked.value| && ranked.value[k].text in mapping =>
                               Block(k, mapping[ranked.value[k].text]))))
  {
    if backend.query(target, query).Ok? {
      var matches := backend.query(target, query).value;
      var ranked := backend.rerank(query, Candidates(matches, Candidate), target.topReranked);
      var mapping := CandidateMap(matches, Candidate);
      if ranked.Ok? && forall k :: 0 <= k < |ranked.value| ==> ranked.value[k].text in mapping {
        ResolveAllPresent(ranked.value, mapping);
        var ms := Resolve(ranked.value, mapping).value;
        var blocks := seq(|ms|, i requires 0 <= i < |ms| => Block(i, ms[i]));
        var formatted := Blocks(ranked.value, mapping, Block);
        assert formatted.Ok? && |formatted.value| == |blocks|;
        assert forall i :: 0 <= i < |blocks| ==> formatted.value[i] == blocks[i];
        assert formatted.value == blocks;
        assert blocks == seq(|ranked.value|, k requires 0 <= k < |ranked.value| && ranked.value[k].text in mapping =>
                                               Block(k, mapping[ranked.value[k].text]));
      }
    }
  }

  /** A reranked text that no match produced is the `KeyError` of the first such text,
      reported with the error prefix. */
  lemma SearchTextMissing(query: Option<string>, target: SearchTarget, backend: Backend, i: nat)
    requires backend.query(target, query).Ok?
    requires var matches := backend.query(target, query).value;
      var ranked := backend.rerank(query, Candidates(matches, Candidate), target.topReranked);
      var mapping := CandidateMap(matches, Candidate);
      ranked.Ok? && i < |ranked.value| && ranked.value[i].text !in mapping
      && forall k :: 0 <= k < i ==> ranked.value[k].text in mapping
    ensures var ranked := backend.rerank(query, Candidates(backend.query(target, query).value, Candidate), target.topReranked);
      SearchText(query, target, backend) == SearchError(KeyErrorText(ranked.value[i].text))
  {
    var matches := backend.query(target, query).value;
    var ranked := backend.rerank(query, Candidates(matches, Candidate), target.topReranked);
    ResolveFirstMissing(ranked.value, CandidateMap(matches, Candidate), i);
  }

  /** Matches without a summary preview all rerank as "", so every item of such a
      reranking is reported as the last of those matches. */
  lemma MissingPreviewsCollapse(first: Match, second: Match, ranked: seq<Ranked>)
    requires "contextual_summary_preview" !in first.metadata && "contextual_summary_preview" !in second.metadata
    requires forall k :: 0 <= k < |ranked| ==> ranked[k].text == ""
    ensures var r := Resolve(ranked, CandidateMap([first, second], Candidate));
      r.Ok? && |r.value| == |ranked| && forall k :: 0 <= k < |ranked| ==> r.value[k] == second
  {
    SharedTextReportsLast(first, second, Candidate, ranked);
  }

  /** A block carries the original text preview verbatim, quoted and not truncated,
      unlike the chatbot service's 1000-character content. */
  lemma BlockQuotesPreview(i: nat, m: Match)
    ensures Contains(Block(i, m), QuotedField("original_text", Get(m.metadata, "original_text_preview", "")))
  {
    var t := QuotedField("original_text", Get(m.metadata, "original_text_preview", ""));
    var pre := "##ID: " + m.id + "\n";
    var post := QuotedField("contextual_summary", Get(m.metadata, "contextual_summary_preview", ""))
      + QuotedField("source_file", Get(m.metadata, "source_file", ""));
    assert BlockFields(m) == pre + t + post;
    ContainsInfix(pre, t, post);
    ContainsExtend(BlockFields(m), t, NatToString(i + 1) + "\n\n");
  }

  /** `scaling_up_search(query)`: the search over the fixed demo index and namespace. */
  method ScalingUpSearch(query: Option<string>, backend: Backend) returns (text: string)
    ensures text == SearchText(query, DefaultTarget("scaling-up", "scaling-up-demo"), backend)
  {
    text := VectorSearch(query, DefaultTarget("scaling-up", "scaling-up-demo"), backend);
  }
}
