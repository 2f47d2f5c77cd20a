/** Result shaping shared by the two search tools: every match of the vector query
    contributes a candidate text for the reranker, a dictionary from candidate text
    to match keeps the last match per text, and every reranked item is resolved
    back to its match through that dictionary and formatted as a numbered block. */
module Retrieval {
  import opened Common

  /** A match of the vector query: its id and its metadata (`match.metadata or {}`). */
  datatype Match = Match(id: string, metadata: map<string, string>)

  /** An item of the reranker's answer: the ranked document's text
      (`return_documents=True`) and its score. */
  datatype Ranked = Ranked(text: string, score: real)

  /** Where and how a search runs. */
  datatype SearchTarget = SearchTarget(indexName: string, namespace: string, topK: int, topReranked: int, embeddingModel: string)

  /** The remote side of a search: embedding plus vector query (Err when either
      raises), and the reranker. */
  datatype Backend = Backend(
    query: (SearchTarget, Option<string>) -> Result<seq<Match>>,
    rerank: (Option<string>, seq<string>, int) -> Result<seq<Ranked>>)

  const SEARCH_ERROR_PREFIX := "Error performing search: "

  function SearchError(message: string): string {
    SEARCH_ERROR_PREFIX + message
  }

  // ---------------------------------------------------------------------------
  // Candidates and the text -> match dictionary.

  function Candidates(matches: seq<Match>, candidate: Match -> string): (documents: seq<string>)
    ensures |documents| == |matches|
    ensures forall i :: 0 <= i < |matches| ==> documents[i] == candidate(matches[i])
  {
    seq(|matches|, i requires 0 <= i < |matches| => candidate(matches[i]))
  }

  /** `doc_mapping[doc_text] = match` over the matches in order. */
  function CandidateMap(matches: seq<Match>, candidate: Match -> string): map<string, Match> {
    if matches == [] then map[]
    else
      var last := matches[|matches| - 1];
      CandidateMap(matches[..|matches| - 1], candidate)[candidate(last) := last]
  }

  /** The dictionary's keys are exactly the candidate texts. */
  lemma {:induction false} CandidateMapKeys(matches: seq<Match>, candidate: Match -> string)
    ensures CandidateMap(matches, candidate).Keys == set i | 0 <= i < |matches| :: candidate(matches[i])
  {
    if matches != [] {
      var n := |matches| - 1;
      CandidateMapKeys(matches[..n], candidate);
      var keys := set i | 0 <= i < |matches| :: candidate(matches[i]);
      var prev := set i | 0 <= i < n :: candidate(matches[..n][i]);
      assert prev == set i | 0 <= i < n :: candidate(matches[i]) by {
        forall i | 0 <= i < n ensures matches[..n][i] == matches[i] { }
      }
      assert keys == prev + {candidate(matches[n])};
    }
  }

  /** Last write wins: a text maps to the last match that produced it. */
  lemma {:induction false} CandidateMapLastWins(matches: seq<Match>, candidate: Match -> string, i: nat)
    requires i < |matches|
    requires forall j :: i < j < |matches| ==> candidate(matches[j]) != candidate(matches[i])
    ensures candidate(matches[i]) in CandidateMap(matches, candidate)
    ensures CandidateMap(matches, candidate)[candidate(matches[i])] == matches[i]
  {
    var n := |matches| - 1;
    if i < n {
      forall j | i < j < n
        ensures candidate(matches[..n][j]) != candidate(matches[..n][i])
      {
        assert matches[..n][j] == matches[j];
      }
      CandidateMapLastWins(matches[..n], candidate, i);
      assert matches[..n][i] == matches[i];
    }
  }

  /** The loop over the query matches that fills `documents` and `doc_mapping`. */
  method CollectCandidates(matches: seq<Match>, candidate: Match -> string)
    returns (documents: seq<string>, mapping: map<string, Match>)
    ensures documents == Candidates(matches, candidate)
    ensures mapping == CandidateMap(matches, candidate)
  {
    documents, mapping := [], map[];
    var i := 0;
    while i < |matches|
      invariant i <= |matches|
      invariant documents == Candidates(matches[..i], candidate)
      invariant mapping == CandidateMap(matches[..i], candidate)
    {
      assert matches[..i + 1][..i] == matches[..i];
      var text := candidate(matches[i]);
      documents := documents + [text];
      mapping := mapping[text := matches[i]];
      i := i + 1;
    }
    assert matches[..i] == matches;
  }

  // ---------------------------------------------------------------------------
  // Resolving and formatting the reranked items.

  /** `doc_mapping[reranked.document.text]` for every item in order; a text that is not
      a key raises `KeyError`, whose message is the `repr` of the key. */
  function Resolve(ranked: seq<Ranked>, mapping: map<string, Match>): Result<seq<Match>> {
    if ranked == [] then Ok([])
    else if ranked[0].text !in mapping then Err(KeyErrorText(ranked[0].text))
    else match Resolve(ranked[1..], mapping)
      case Err(e) => Err(e)
      case Ok(rest) => Ok([mapping[ranked[0].text]] + rest)
  }

  /** When every ranked text is a key, resolution succeeds item by item. */
  lemma {:induction false} ResolveAllPresent(ranked: seq<Ranked>, mapping: map<string, Match>)
    requires forall k :: 0 <= k < |ranked| ==> ranked[k].text in mapping
    ensures Resolve(ranked, mapping).Ok?
    ensures |Resolve(ranked, mapping).value| == |ranked|
    ensures forall k :: 0 <= k < |ranked| ==> Resolve(ranked, mapping).value[k] == mapping[ranked[k].text]
  {
    if ranked != [] {
      ResolveAllPresent(ranked[1..], mapping);
      var rest := Resolve(ranked[1..], mapping).value;
      forall k | 1 <= k < |ranked|
        ensures ([mapping[ranked[0].text]] + rest)[k] == mapping[ranked[k].text]
      {
        assert ranked[1..][k - 1] == ranked[k];
      }
    }
  }

  /** The first missing text decides the error. */
  lemma {:induction false} ResolveFirstMissing(ranked: seq<Ranked>, mapping: map<string, Match>, i: nat)
    requires i < |ranked| && ranked[i].text !in mapping
    requires forall k :: 0 <= k < i ==> ranked[k].text in mapping
    ensures Resolve(ranked, mapping) == Err(KeyErrorText(ranked[i].text))
  {
    if i > 0 {
      forall k | 0 <= k < i - 1
        ensures ranked[1..][k].text in mapping
      {
        assert ranked[1..][k] == ranked[k + 1];
      }
      ResolveFirstMissing(ranked[1..], mapping, i - 1);
    }
  }

  /** The formatted blocks of the resolved matches, numbered from 0 here (the block
      function prints `i + 1`). */
  function Blocks(ranked: seq<Ranked>, mapping: map<string, Match>, block: (nat, Match) -> string): Result<seq<string>> {
    match Resolve(ranked, mapping)
    case Err(e) => Err(e)
    case Ok(ms) => Ok(seq(|ms|, i requires 0 <= i < |ms| => block(i, ms[i])))
  }

  /** The loop over the reranked items that fills `results`. */
  method FormatResults(ranked: seq<Ranked>, mapping: map<string, Match>, block: (nat, Match) -> string)
    returns (results: Result<seq<string>>)
    ensures results == Blocks(ranked, mapping, block)
  {
    var blocks: seq<string> := [];
    var i := 0;
    while i < |ranked|
      invariant i <= |ranked|
      invariant forall k :: 0 <= k < i ==> ranked[k].text in mapping
      invariant |blocks| == i
      invariant forall k :: 0 <= k < i ==> blocks[k] == block(k, mapping[ranked[k].text])
    {
      if ranked[i].text !in mapping {
        ResolveFirstMissing(ranked, mapping, i);
        return Err(KeyErrorText(ranked[i].text));
      }
      blocks := blocks + [block(i, mapping[ranked[i].text])];
      i := i + 1;
    }
    ResolveAllPresent(ranked, mapping);
    var ms := Resolve(ranked, mapping).value;
    assert blocks == seq(|ms|, k requires 0 <= k < |ms| => block(k, ms[k]));
    results := Ok(blocks);
  }

  /** Matches that share a reranking text are indistinguishable after reranking: every
      item carrying that text is reported as the last of them. */
  lemma SharedTextReportsLast(first: Match, second: Match, candidate: Match -> string, ranked: seq<Ranked>)
    requires candidate(first) == candidate(second)
    requires forall k :: 0 <= k < |ranked| ==> ranked[k].text == candidate(first)
    ensures var r := Resolve(ranked, CandidateMap([first, second], candidate));
      r.Ok? && |r.value| == |ranked| && forall k :: 0 <= k < |ranked| ==> r.value[k] == second
  {
    var mapping := CandidateMap([first, second], candidate);
    assert [first, second][..1] == [first] && [first][..0] == [];
    assert CandidateMap([first], candidate) == map[candidate(first) := first];
    assert mapping == map[candidate(first) := second];
    ResolveAllPresent(ranked, mapping);
  }
}
