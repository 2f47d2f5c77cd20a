/** The indexing pipeline of one document (`prepare_document_chunks`,
    `index_document`): the text is chunked, the chunks are summarised and embedded
    batch by batch, and the resulting vector records are upserted in slices.
    The services it calls are parameters: `summaryOf(i)` is the outcome of
    summarising chunk `i`, `embed(b, texts)` the outcome of the embedding request
    of the batch starting at chunk `b`, and `upsert(b, i)` the outcome of upserting
    the slice starting at record `i` of that batch. */
module Indexing {
  import opened Common
  import opened Chunker
  import opened Documents

  const CHUNK_BATCH_SIZE: nat := 5
  /** Records per upsert request (the vector store's batch limit). */
  const UPSERT_SLICE_SIZE: nat := 100
  /** Characters of a chunk kept in the record's metadata. */
  const ORIGINAL_TEXT_LIMIT: nat := 1000
  const SUMMARY_LABEL := "\n\nContextual summary: "

  /** An embedding vector; the floats are never inspected. */
  datatype Embedding = Embedding(values: seq<real>)

  /** One vector sent to the store: its id, its values and its metadata. */
  datatype VectorRecord = VectorRecord(
    id: string, values: Embedding, documentId: int, chunkId: nat,
    originalText: string, contextualSummary: string, sourceFile: string)

  /** A chunk whose summary succeeded, paired with that summary (the source keeps
      them in two parallel lists that are only ever zipped together). */
  datatype Survivor = Survivor(chunk: string, summary: string)

  // ---------------------------------------------------------------------------
  // Survivors of a batch.

  /** Positions of the successful summaries, in order. */
  function SurvivorIndices(outcomes: seq<Result<string>>): (idx: seq<nat>)
    ensures forall j :: 0 <= j < |idx| ==> idx[j] < |outcomes| && outcomes[idx[j]].Ok?
  {
    if outcomes == [] then []
    else
      var n := |outcomes| - 1;
      SurvivorIndices(outcomes[..n]) + (if outcomes[n].Ok? then [n] else [])
  }

  /** The index list holds exactly the successful positions, each once, in increasing order. */
  lemma {:induction false} SurvivorIndicesExact(outcomes: seq<Result<string>>)
    ensures var idx := SurvivorIndices(outcomes);
      (forall j, l :: 0 <= j < l < |idx| ==> idx[j] < idx[l])
      && (forall i :: 0 <= i < |outcomes| ==> (outcomes[i].Ok? <==> i in idx))
  {
    if outcomes != [] {
      var n := |outcomes| - 1;
      SurvivorIndicesExact(outcomes[..n]);
      var prev := SurvivorIndices(outcomes[..n]);
      assert forall j :: 0 <= j < |prev| ==> prev[j] < n;
      forall i | 0 <= i < n
        ensures outcomes[i] == outcomes[..n][i]
      {
      }
    }
  }

  /** The successful chunks of a batch, in order, each paired with its own summary. */
  function Survivors(batch: seq<string>, outcomes: seq<Result<string>>): (r: seq<Survivor>)
    requires |outcomes| == |batch|
    ensures |r| == |SurvivorIndices(outcomes)|
  {
    var idx := SurvivorIndices(outcomes);
    seq(|idx|, j requires 0 <= j < |idx| => Survivor(batch[idx[j]], outcomes[idx[j]].value))
  }

  /** Appending one more summary outcome appends its chunk exactly when it succeeded. */
  lemma SurvivorsStep(batch: seq<string>, outcomes: seq<Result<string>>, i: nat)
    requires |outcomes| == |batch| && i < |batch|
    ensures Survivors(batch[..i + 1], outcomes[..i + 1])
         == Survivors(batch[..i], outcomes[..i])
            + (if outcomes[i].Ok? then [Survivor(batch[i], outcomes[i].value)] else [])
  {
    assert outcomes[..i + 1][..i] == outcomes[..i];
    var prev := SurvivorIndices(outcomes[..i]);
    var idx := SurvivorIndices(outcomes[..i + 1]);
    assert idx == prev + (if outcomes[i].Ok? then [i] else []);
  }

  /** The filtering loop over the gathered summary outcomes. */
  method PartitionBatch(batch: seq<string>, outcomes: seq<Result<string>>) returns (survivors: seq<Survivor>)
    requires |outcomes| == |batch|
    ensures survivors == Survivors(batch, outcomes)
  {
    survivors := [];
    var i := 0;
    while i < |outcomes|
      invariant i <= |outcomes|
      invariant survivors == Survivors(batch[..i], outcomes[..i])
    {
      SurvivorsStep(batch, outcomes, i);
      if outcomes[i].Ok? {
        survivors := survivors + [Survivor(batch[i], outcomes[i].value)];
      }
      i := i + 1;
    }
    assert batch[..i] == batch && outcomes[..i] == outcomes;
  }

  // ---------------------------------------------------------------------------
  // Embedding and records.

  /** The text embedded for a survivor. */
  function EmbeddingText(s: Survivor): string {
    s.chunk + SUMMARY_LABEL + s.summary
  }

  function EmbeddingTexts(survivors: seq<Survivor>): (texts: seq<string>)
    ensures |texts| == |survivors|
    ensures forall k :: 0 <= k < |survivors| ==> texts[k] == EmbeddingText(survivors[k])
  {
    seq(|survivors|, k requires 0 <= k < |survivors| => EmbeddingText(survivors[k]))
  }

  /** `get_batch_embeddings_async`: an empty input list is answered without a request. */
  function BatchEmbeddings(texts: seq<string>, request: seq<string> -> Result<seq<Embedding>>): (r: Result<seq<Embedding>>)
    ensures texts == [] ==> r == Ok([])
    ensures texts != [] ==> r == request(texts)
  {
    if texts == [] then Ok([]) else request(texts)
  }

  /** `doc_{document_id}_chunk_{chunk_id}`. */
  function VectorId(documentId: int, chunkId: nat): string {
    "doc_" + IntToString(documentId) + "_chunk_" + NatToString(chunkId)
  }

  /** Within one document, distinct chunk ids give distinct vector ids. */
  lemma VectorIdInjective(documentId: int, a: nat, b: nat)
    requires a != b
    ensures VectorId(documentId, a) != VectorId(documentId, b)
  {
    var prefix := "doc_" + IntToString(documentId) + "_chunk_";
    assert VectorId(documentId, a)[|prefix|..] == NatToString(a);
    assert VectorId(documentId, b)[|prefix|..] == NatToString(b);
    NatToStringInjective(a, b);
  }

  /** Different documents never share a vector id, whatever their chunk ids: the
      document id ends at the first `_` after `doc_`. */
  lemma VectorIdsDistinctAcrossDocuments(d1: int, d2: int, a: nat, b: nat)
    requires d1 != d2
    ensures VectorId(d1, a) != VectorId(d2, b)
  {
    var t1, t2 := IntToString(d1), IntToString(d2);
    var v1, v2 := VectorId(d1, a), VectorId(d2, b);
    IntToStringInjective(d1, d2);
    assert v1 == "doc_" + t1 + ("_chunk_" + NatToString(a));
    assert v2 == "doc_" + t2 + ("_chunk_" + NatToString(b));
    if |t1| == |t2| {
      assert v1[4..4 + |t1|] == t1 && v2[4..4 + |t2|] == t2;
    } else if |t1| < |t2| {
      assert v1[4 + |t1|] == '_' && v2[4 + |t1|] == t2[|t1|];
    } else {
      assert v2[4 + |t2|] == '_' && v1[4 + |t2|] == t1[|t2|];
    }
  }

  /** The record of the k-th survivor of the batch starting at `batchStart`: it is
      numbered by its position among the survivors, not by its position in the batch. */
  function MakeRecord(documentId: int, filename: string, batchStart: nat, k: nat, s: Survivor, e: Embedding): VectorRecord {
    VectorRecord(VectorId(documentId, batchStart + k), e, documentId, batchStart + k,
                 Take(s.chunk, ORIGINAL_TEXT_LIMIT), s.summary, filename)
  }

  /** `zip(successful_chunks, successful_summaries, embeddings)`: as many records as
      the shorter of survivors and embeddings. */
  function Records(documentId: int, filename: string, batchStart: nat, survivors: seq<Survivor>, embeddings: seq<Embedding>): (r: seq<VectorRecord>)
    ensures |r| == Min(|survivors|, |embeddings|)
  {
    seq(Min(|survivors|, |embeddings|),
        k requires 0 <= k < Min(|survivors|, |embeddings|) =>
          MakeRecord(documentId, filename, batchStart, k, survivors[k], embeddings[k]))
  }

  /** What each record carries: id and chunk id from the survivor position, the
      first 1000 characters of its chunk, its own summary and the file name. */
  lemma RecordFields(documentId: int, filename: string, batchStart: nat, survivors: seq<Survivor>, embeddings: seq<Embedding>, k: nat)
    requires k < |survivors| && k < |embeddings|
    ensures var r := Records(documentId, filename, batchStart, survivors, embeddings);
      k < |r|
      && r[k].id == VectorId(documentId, batchStart + k) && r[k].chunkId == batchStart + k
      && r[k].documentId == documentId && r[k].values == embeddings[k]
      && |r[k].originalText| == Min(|survivors[k].chunk|, ORIGINAL_TEXT_LIMIT)
      && r[k].originalText == survivors[k].chunk[..|r[k].originalText|]
      && r[k].contextualSummary == survivors[k].summary && r[k].sourceFile == filename
  {
  }

  /** The loop that builds the `vectors` list. */
  method BuildRecords(documentId: int, filename: string, batchStart: nat, survivors: seq<Survivor>, embeddings: seq<Embedding>)
    returns (vectors: seq<VectorRecord>)
    ensures vectors == Records(documentId, filename, batchStart, survivors, embeddings)
  {
    vectors := [];
    var k := 0;
    while k < |survivors| && k < |embeddings|
      invariant k <= Min(|survivors|, |embeddings|)
      invariant |vectors| == k
      invariant forall j :: 0 <= j < k ==>
        vectors[j] == MakeRecord(documentId, filename, batchStart, j, survivors[j], embeddings[j])
    {
      vectors := vectors + [MakeRecord(documentId, filename, batchStart, k, survivors[k], embeddings[k])];
      k := k + 1;
    }
  }

  // ---------------------------------------------------------------------------
  // Upsert in slices of 100; the first failing slice ends the batch's upserts.

  /** The records stored by upserting `records[from..]` slice by slice: each slice is
      stored whole, and a raising slice stores nothing and stops the loop. */
  function Upserted(records: seq<VectorRecord>, batchStart: nat, upsert: (nat, nat) -> Result<()>, from: nat): (r: seq<VectorRecord>)
    decreases |records| - from
  {
    if from >= |records| then []
    else if upsert(batchStart, from).Err? then []
    else records[from..Min(from + UPSERT_SLICE_SIZE, |records|)] + Upserted(records, batchStart, upsert, from + UPSERT_SLICE_SIZE)
  }

  /** What is stored is always a prefix of whole slices of the records: all of them
      when no slice fails, and only the slices before the first failing one otherwise. */
  lemma {:induction false} UpsertedPrefix(records: seq<VectorRecord>, batchStart: nat, upsert: (nat, nat) -> Result<()>, from: nat)
    requires from <= |records|
    ensures var r := Upserted(records, batchStart, upsert, from);
      from + |r| <= |records| && r == records[from..from + |r|]
      && (from + |r| == |records| || upsert(batchStart, from + |r|).Err?)
      && ((from + |r|) % UPSERT_SLICE_SIZE == from % UPSERT_SLICE_SIZE || from + |r| == |records|)
    decreases |records| - from
  {
    if from < |records| && upsert(batchStart, from).Ok? {
      var next := Min(from + UPSERT_SLICE_SIZE, |records|);
      if next < |records| {
        UpsertedPrefix(records, batchStart, upsert, next);
        var rest := Upserted(records, batchStart, upsert, next);
        assert records[from..next] + records[next..next + |rest|] == records[from..next + |rest|];
      }
    }
  }

  /** With every slice succeeding, every record is stored. */
  lemma {:induction false} UpsertedAll(records: seq<VectorRecord>, batchStart: nat, upsert: (nat, nat) -> Result<()>, from: nat)
    requires from <= |records|
    requires forall i :: from <= i < |records| ==> upsert(batchStart, i).Ok?
    ensures Upserted(records, batchStart, upsert, from) == records[from..]
    decreases |records| - from
  {
    if from < |records| {
      var next := Min(from + UPSERT_SLICE_SIZE, |records|);
      if next < |records| {
        UpsertedAll(records, batchStart, upsert, next);
      }
    }
  }

  /** The slice loop inside its try block. */
  method UpsertSlices(records: seq<VectorRecord>, batchStart: nat, upsert: (nat, nat) -> Result<()>)
    returns (stored: seq<VectorRecord>)
    ensures stored == Upserted(records, batchStart, upsert, 0)
  {
    stored := [];
    var i := 0;
    while i < |records|
      invariant stored + Upserted(records, batchStart, upsert, i) == Upserted(records, batchStart, upsert, 0)
      decreases |records| - i
    {
      if upsert(batchStart, i).Err? {
        return;
      }
      var slice := records[i..Min(i + UPSERT_SLICE_SIZE, |records|)];
      assert stored + Upserted(records, batchStart, upsert, i)
          == (stored + slice) + Upserted(records, batchStart, upsert, i + UPSERT_SLICE_SIZE);
      stored := stored + slice;
      i := i + UPSERT_SLICE_SIZE;
    }
  }

  // ---------------------------------------------------------------------------
  // Batches.

  /** The chunks of the batch starting at `batchStart`. */
  function Batch(chunks: seq<string>, batchStart: nat): (batch: seq<string>)
    requires batchStart <= |chunks|
    ensures 0 < |batch| <= CHUNK_BATCH_SIZE || batchStart == |chunks|
  {
    chunks[batchStart..Min(batchStart + CHUNK_BATCH_SIZE, |chunks|)]
  }

  /** The gathered summary outcomes of a batch, aligned with its chunks. */
  function BatchOutcomes(batchStart: nat, size: nat, summaryOf: nat -> Result<string>): (outcomes: seq<Result<string>>)
    ensures |outcomes| == size
    ensures forall i :: 0 <= i < size ==> outcomes[i] == summaryOf(batchStart + i)
  {
    seq(size, i requires 0 <= i => summaryOf(batchStart + i))
  }

  /** What one batch writes: nothing without survivors or when embedding raises,
      otherwise the upserted part of its records. */
  function BatchWrites(documentId: int, filename: string, chunks: seq<string>, batchStart: nat,
                       summaryOf: nat -> Result<string>, embed: (nat, seq<string>) -> Result<seq<Embedding>>,
                       upsert: (nat, nat) -> Result<()>): seq<VectorRecord>
    requires batchStart <= |chunks|
  {
    var batch := Batch(chunks, batchStart);
    var survivors := Survivors(batch, BatchOutcomes(batchStart, |batch|, summaryOf));
    if survivors == [] then []
    else
      var texts := EmbeddingTexts(survivors);
      match BatchEmbeddings(texts, t => embed(batchStart, t))
      case Err(_) => []
      case Ok(embeddings) =>
        Upserted(Records(documentId, filename, batchStart, survivors, embeddings), batchStart, upsert, 0)
  }

  /** What the batches from `batchStart` on write, one batch after another. */
  function DocumentWrites(documentId: int, filename: string, chunks: seq<string>, batchStart: nat,
                          summaryOf: nat -> Result<string>, embed: (nat, seq<string>) -> Result<seq<Embedding>>,
                          upsert: (nat, nat) -> Result<()>): seq<VectorRecord>
    decreases |chunks| - batchStart
  {
    if batchStart >= |chunks| then []
    else BatchWrites(documentId, filename, chunks, batchStart, summaryOf, embed, upsert)
         + DocumentWrites(documentId, filename, chunks, batchStart + CHUNK_BATCH_SIZE, summaryOf, embed, upsert)
  }

  /** The chunk ids one batch writes are consecutive from the batch start and stay
      inside the batch's range. */
  lemma BatchWritesIds(documentId: int, filename: string, chunks: seq<string>, batchStart: nat,
                       summaryOf: nat -> Result<string>, embed: (nat, seq<string>) -> Result<seq<Embedding>>,
                       upsert: (nat, nat) -> Result<()>)
    requires batchStart <= |chunks|
    ensures var w := BatchWrites(documentId, filename, chunks, batchStart, summaryOf, embed, upsert);
      |w| <= CHUNK_BATCH_SIZE
      && forall k :: 0 <= k < |w| ==>
           w[k].chunkId == batchStart + k && w[k].id == VectorId(documentId, batchStart + k)
           && w[k].documentId == documentId && w[k].sourceFile == filename
  {
    var batch := Batch(chunks, batchStart);
    var survivors := Survivors(batch, BatchOutcomes(batchStart, |batch|, summaryOf));
    if survivors != [] {
      SurvivorIndicesExact(BatchOutcomes(batchStart, |batch|, summaryOf));
      var idx := SurvivorIndices(BatchOutcomes(batchStart, |batch|, summaryOf));
      SubsetSize(idx, |batch|);
      var texts := EmbeddingTexts(survivors);
      match BatchEmbeddings(texts, t => embed(batchStart, t))
      case Err(_) =>
      case Ok(embeddings) =>
        var records := Records(documentId, filename, batchStart, survivors, embeddings);
        UpsertedPrefix(records, batchStart, upsert, 0);
    }
  }

  /** A strictly increasing list of positions below `n` has at most `n` entries. */
  lemma {:induction false} SubsetSize(idx: seq<nat>, n: nat)
    requires forall j :: 0 <= j < |idx| ==> idx[j] < n
    requires forall j, l :: 0 <= j < l < |idx| ==> idx[j] < idx[l]
    ensures |idx| <= n
  {
    if idx != [] {
      var last := |idx| - 1;
      SubsetSize(idx[..last], idx[last]);
    }
  }

  /** Chunk ids at or above `lo`, each record under the vector id of its chunk id. */
  predicate IdsFrom(w: seq<VectorRecord>, documentId: int, lo: nat) {
    forall k :: 0 <= k < |w| ==> lo <= w[k].chunkId && w[k].id == VectorId(documentId, w[k].chunkId)
  }

  predicate Increasing(w: seq<VectorRecord>) {
    forall j, k :: 0 <= j < k < |w| ==> w[j].chunkId < w[k].chunkId
  }

  lemma IncreasingAppend(head: seq<VectorRecord>, tail: seq<VectorRecord>, bound: nat)
    requires Increasing(head) && Increasing(tail)
    requires forall k :: 0 <= k < |head| ==> head[k].chunkId < bound
    requires forall k :: 0 <= k < |tail| ==> bound <= tail[k].chunkId
    ensures Increasing(head + tail)
  {
    var w := head + tail;
    forall j, k | 0 <= j < k < |w|
      ensures w[j].chunkId < w[k].chunkId
    {
      if k >= |head| && j < |head| {
        assert w[j] == head[j] && w[k] == tail[k - |head|];
      }
    }
  }

  /** Across the whole document the written chunk ids strictly increase, so no two
      written records share a vector id. */
  lemma {:induction false} DocumentWritesIncreasing(documentId: int, filename: string, chunks: seq<string>, batchStart: nat,
                                                    summaryOf: nat -> Result<string>, embed: (nat, seq<string>) -> Result<seq<Embedding>>,
                                                    upsert: (nat, nat) -> Result<()>)
    ensures var w := DocumentWrites(documentId, filename, chunks, batchStart, summaryOf, embed, upsert);
      IdsFrom(w, documentId, batchStart) && Increasing(w)
    decreases |chunks| - batchStart
  {
    if batchStart < |chunks| {
      var head := BatchWrites(documentId, filename, chunks, batchStart, summaryOf, embed, upsert);
      var tail := DocumentWrites(documentId, filename, chunks, batchStart + CHUNK_BATCH_SIZE, summaryOf, embed, upsert);
      assert DocumentWrites(documentId, filename, chunks, batchStart, summaryOf, embed, upsert) == head + tail;
      BatchWritesIds(documentId, filename, chunks, batchStart, summaryOf, embed, upsert);
      DocumentWritesIncreasing(documentId, filename, chunks, batchStart + CHUNK_BATCH_SIZE, summaryOf, embed, upsert);
      assert IdsFrom(head, documentId, batchStart) && Increasing(head);
      IncreasingAppend(head, tail, batchStart + CHUNK_BATCH_SIZE);
      assert IdsFrom(head + tail, documentId, batchStart);
    }
  }

  /** Indexing two different documents never writes the same vector id twice, so one
      document's records never overwrite another's. */
  lemma DocumentsWriteDisjointIds(d1: int, f1: string, c1: seq<string>, s1: nat -> Result<string>,
                                  e1: (nat, seq<string>) -> Result<seq<Embedding>>, u1: (nat, nat) -> Result<()>,
                                  d2: int, f2: string, c2: seq<string>, s2: nat -> Result<string>,
                                  e2: (nat, seq<string>) -> Result<seq<Embedding>>, u2: (nat, nat) -> Result<()>,
                                  j: nat, k: nat)
    requires d1 != d2
    requires j < |DocumentWrites(d1, f1, c1, 0, s1, e1, u1)| && k < |DocumentWrites(d2, f2, c2, 0, s2, e2, u2)|
    ensures DocumentWrites(d1, f1, c1, 0, s1, e1, u1)[j].id != DocumentWrites(d2, f2, c2, 0, s2, e2, u2)[k].id
  {
    var w1, w2 := DocumentWrites(d1, f1, c1, 0, s1, e1, u1), DocumentWrites(d2, f2, c2, 0, s2, e2, u2);
    DocumentWritesIncreasing(d1, f1, c1, 0, s1, e1, u1);
    DocumentWritesIncreasing(d2, f2, c2, 0, s2, e2, u2);
    VectorIdsDistinctAcrossDocuments(d1, d2, w1[j].chunkId, w2[k].chunkId);
  }

  /** Distinct written records have distinct vector ids. */
  lemma DocumentWritesDistinctIds(documentId: int, filename: string, chunks: seq<string>,
                                  summaryOf: nat -> Result<string>, embed: (nat, seq<string>) -> Result<seq<Embedding>>,
                                  upsert: (nat, nat) -> Result<()>, j: nat, k: nat)
    requires j < k < |DocumentWrites(documentId, filename, chunks, 0, summaryOf, embed, upsert)|
    ensures var w := DocumentWrites(documentId, filename, chunks, 0, summaryOf, embed, upsert);
      w[j].id != w[k].id
  {
    var w := DocumentWrites(documentId, filename, chunks, 0, summaryOf, embed, upsert);
    DocumentWritesIncreasing(documentId, filename, chunks, 0, summaryOf, embed, upsert);
    assert w[j].chunkId < w[k].chunkId;
    VectorIdInjective(documentId, w[j].chunkId, w[k].chunkId);
  }

  /** Numbering by survivor position: when the first summary of a batch fails and the
      second succeeds, the second chunk is stored under the batch's first chunk id. */
  lemma SurvivorNumbering(documentId: int, filename: string, batchStart: nat, c0: string, c1: string, s1: string, e: Embedding, message: string)
    ensures var survivors := Survivors([c0, c1], [Err(message), Ok(s1)]);
      var r := Records(documentId, filename, batchStart, survivors, [e]);
      |r| == 1 && r[0].chunkId == batchStart && r[0].id == VectorId(documentId, batchStart)
      && r[0].originalText == Take(c1, ORIGINAL_TEXT_LIMIT) && r[0].contextualSummary == s1
  {
    var outcomes: seq<Result<string>> := [Err(message), Ok(s1)];
    assert outcomes[..1] == [Err(message)];
    assert outcomes[..1][..0] == [];
    assert SurvivorIndices(outcomes[..1][..0]) == [];
    assert SurvivorIndices(outcomes[..1]) == [];
    assert SurvivorIndices(outcomes) == [1];
  }

  // ---------------------------------------------------------------------------
  // The pipeline.

  /** One iteration of the batch loop. */
  method ProcessBatch(documentId: int, filename: string, chunks: seq<string>, batchStart: nat,
                      summaryOf: nat -> Result<string>, embed: (nat, seq<string>) -> Result<seq<Embedding>>,
                      upsert: (nat, nat) -> Result<()>)
    returns (written: seq<VectorRecord>)
    requires batchStart <= |chunks|
    ensures written == BatchWrites(documentId, filename, chunks, batchStart, summaryOf, embed, upsert)
  {
    var batch := Batch(chunks, batchStart);
    var outcomes := BatchOutcomes(batchStart, |batch|, summaryOf);
    var survivors := PartitionBatch(batch, outcomes);
    if survivors == [] {
      return [];
    }
    var texts := EmbeddingTexts(survivors);
    var embeddings := BatchEmbeddings(texts, t => embed(batchStart, t));
    if embeddings.Err? {
      return [];
    }
    var vectors := BuildRecords(documentId, filename, batchStart, survivors, embeddings.value);
    written := [];
    if vectors != [] {
      written := UpsertSlices(vectors, batchStart, upsert);
    }
  }

  /** The batch loop: batches start at 0, 5, 10, ... and run one after another. */
  method IndexChunks(documentId: int, filename: string, chunks: seq<string>,
                     summaryOf: nat -> Result<string>, embed: (nat, seq<string>) -> Result<seq<Embedding>>,
                     upsert: (nat, nat) -> Result<()>)
    returns (written: seq<VectorRecord>)
    ensures written == DocumentWrites(documentId, filename, chunks, 0, summaryOf, embed, upsert)
  {
    written := [];
    var batchStart := 0;
    while batchStart < |chunks|
      invariant written + DocumentWrites(documentId, filename, chunks, batchStart, summaryOf, embed, upsert)
             == DocumentWrites(documentId, filename, chunks, 0, summaryOf, embed, upsert)
      decreases |chunks| - batchStart
    {
      var batchWritten := ProcessBatch(documentId, filename, chunks, batchStart, summaryOf, embed, upsert);
      DocumentWritesStep(documentId, filename, chunks, batchStart, summaryOf, embed, upsert, written, batchWritten);
      written := written + batchWritten;
      batchStart := batchStart + CHUNK_BATCH_SIZE;
    }
  }

  /** The writes from a batch that exists are that batch's writes followed by the rest's,
      so the writes so far can take in the batch's. */
  lemma DocumentWritesStep(documentId: int, filename: string, chunks: seq<string>, batchStart: nat,
                           summaryOf: nat -> Result<string>, embed: (nat, seq<string>) -> Result<seq<Embedding>>,
                           upsert: (nat, nat) -> Result<()>, before: seq<VectorRecord>, batch: seq<VectorRecord>)
    requires batchStart < |chunks|
    requires batch == BatchWrites(documentId, filename, chunks, batchStart, summaryOf, embed, upsert)
    ensures before + DocumentWrites(documentId, filename, chunks, batchStart, summaryOf, embed, upsert)
         == (before + batch) + DocumentWrites(documentId, filename, chunks, batchStart + CHUNK_BATCH_SIZE, summaryOf, embed, upsert)
  {
    var later := DocumentWrites(documentId, filename, chunks, batchStart + CHUNK_BATCH_SIZE, summaryOf, embed, upsert);
    assert before + (batch + later) == (before + batch) + later;
  }

  /** `prepare_document_chunks`. `setup` is the outcome of creating the clients and
      the index; `encode`/`decode` are the tokenizer. The result lists the records
      stored, in the order they were upserted. */
  method PrepareDocumentChunks(doc: Document?, setup: Result<()>,
                               encode: string -> seq<int>, decode: seq<int> -> string,
                               summaryOf: nat -> Result<string>, embed: (nat, seq<string>) -> Result<seq<Embedding>>,
                               upsert: (nat, nat) -> Result<()>)
    returns (written: seq<VectorRecord>)
    modifies doc
    ensures doc == null ==> written == []
    ensures doc != null ==> doc.contentText == old(doc.contentText)
    ensures doc != null && !IsSet(doc.contentText) ==>
      written == [] && doc.status == old(doc.status) && doc.errorMessage == old(doc.errorMessage)
      && doc.statusLog == old(doc.statusLog)
    ensures doc != null && IsSet(doc.contentText) && setup.Err? ==>
      written == [] && doc.status == Error && doc.errorMessage == Some(setup.error)
      && doc.statusLog == old(doc.statusLog) + [Indexing, Error]
    ensures doc != null && IsSet(doc.contentText) && setup.Ok? ==>
      var chunks := ChunkTexts(encode(doc.contentText.value), DEFAULT_MAX_TOKENS, DEFAULT_OVERLAP, decode);
      written == DocumentWrites(doc.id, doc.filename, chunks, 0, summaryOf, embed, upsert)
      && doc.status == Indexed && doc.errorMessage == old(doc.errorMessage)
      && doc.statusLog == old(doc.statusLog) + [Indexing, Indexed]
  {
    written := [];
    if doc == null || !IsSet(doc.contentText) {
      return;
    }
    doc.SetStatus(Indexing);
    if setup.Err? {
      doc.Fail(setup.error);
      return;
    }
    var tokens := encode(doc.contentText.value);
    var _, chunks := ChunkMarkdown(tokens, DEFAULT_MAX_TOKENS, DEFAULT_OVERLAP, decode);
    written := IndexChunks(doc.id, doc.filename, chunks, summaryOf, embed, upsert);
    doc.SetStatus(Indexed);
  }

  /** `index_document`: both API keys must be set, otherwise the document (when it
      exists) is marked as failed with the key's message and nothing is indexed. */
  method IndexDocument(doc: Document?, openAiKey: Option<string>, pineconeKey: Option<string>, setup: Result<()>,
                       encode: string -> seq<int>, decode: seq<int> -> string,
                       summaryOf: nat -> Result<string>, embed: (nat, seq<string>) -> Result<seq<Embedding>>,
                       upsert: (nat, nat) -> Result<()>)
    returns (written: seq<VectorRecord>)
    modifies doc
    ensures doc != null ==> doc.contentText == old(doc.contentText)
    ensures !IsSet(openAiKey) ==>
      written == []
      && (doc != null ==> doc.status == Error && doc.errorMessage == Some(MissingKeyMessage("OPENAI_API_KEY"))
                          && doc.statusLog == old(doc.statusLog) + [Error])
    ensures IsSet(openAiKey) && !IsSet(pineconeKey) ==>
      written == []
      && (doc != null ==> doc.status == Error && doc.errorMessage == Some(MissingKeyMessage("PINECONE_API_KEY"))
                          && doc.statusLog == old(doc.statusLog) + [Error])
    ensures IsSet(openAiKey) && IsSet(pineconeKey) && doc != null && IsSet(doc.contentText) && setup.Ok? ==>
      var chunks := ChunkTexts(encode(doc.contentText.value), DEFAULT_MAX_TOKENS, DEFAULT_OVERLAP, decode);
      written == DocumentWrites(doc.id, doc.filename, chunks, 0, summaryOf, embed, upsert)
      && doc.status == Indexed && doc.statusLog == old(doc.statusLog) + [Indexing, Indexed]
    ensures IsSet(openAiKey) && IsSet(pineconeKey) && doc != null && IsSet(doc.contentText) && setup.Err? ==>
      written == [] && doc.status == Error && doc.errorMessage == Some(setup.error)
    ensures IsSet(openAiKey) && IsSet(pineconeKey) && (doc == null || !IsSet(doc.contentText)) ==>
      written == [] && (doc != null ==> doc.status == old(doc.status) && doc.statusLog == old(doc.statusLog))
  {
    written := [];
    if !IsSet(openAiKey) {
      if doc != null {
        doc.Fail(MissingKeyMessage("OPENAI_API_KEY"));
      }
      return;
    }
    if !IsSet(pineconeKey) {
      if doc != null {
        doc.Fail(MissingKeyMessage("PINECONE_API_KEY"));
      }
      return;
    }
    written := PrepareDocumentChunks(doc, setup, encode, decode, summaryOf, embed, upsert);
  }

  function MissingKeyMessage(key: string): string {
    key + " is not set"
  }
}
