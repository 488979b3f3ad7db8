/**
 * `RAGService` (backend/qa/services/rag_service.py): embedding the chunks of
 * a document, retrieving the chunks nearest to a question, and composing
 * the prompt and the cited answer. The embedding model and the language
 * model are parameters: each maps its input to a result or to the message
 * of the exception it raised.
 */
module RagService {
  import opened Wrappers
  import opened PyStr
  import opened Records
  import opened VectorIndex

  /** The embedding provider (`genai.embed_content`). */
  type EmbedApi = string -> Result<Vector>

  /** The language model (`generate_content`), from prompt to answer text. */
  type LlmApi = string -> Result<string>

  /** `generate_embedding` (rag_service.py:21-31): the provider's vector, or its error wrapped in the service's message. */
  function GenerateEmbedding(api: EmbedApi, text: string): (r: Result<Vector>)
    ensures r.Success? <==> api(text).Success?
    ensures r.Success? ==> r.value == api(text).value
    ensures r.Failure? ==> r.error == "Error generating embedding: " + api(text).error
  {
    match api(text)
    case Success(v) => Success(v)
    case Failure(e) => Failure("Error generating embedding: " + e)
  }

  // ---------------------------------------------------------------------
  // embed_document_chunks

  /** The chunk belongs to the document and has no embedding yet (rag_service.py:35-38). */
  predicate AwaitsEmbedding(c: Chunk, documentId: DocId)
  {
    c.document == documentId && c.embedding.None?
  }

  /** The chunk after the loop of rag_service.py:45-53 has visited it. */
  function Embedded(c: Chunk, documentId: DocId, api: EmbedApi): Chunk
  {
    if AwaitsEmbedding(c, documentId) && GenerateEmbedding(api, c.text).Success?
    then c.(embedding := Some(GenerateEmbedding(api, c.text).value))
    else c
  }

  /** The chunk table after one embedding pass over a document. */
  function EmbedPass(chunks: seq<Chunk>, documentId: DocId, api: EmbedApi): (r: seq<Chunk>)
    ensures |r| == |chunks|
  {
    seq(|chunks|, i requires 0 <= i < |chunks| => Embedded(chunks[i], documentId, api))
  }

  /** How many chunks of the document await an embedding: the size of the query set that `exists()` tests (rag_service.py:35-41). */
  function PendingCount(chunks: seq<Chunk>, documentId: DocId): nat
  {
    if chunks == [] then 0
    else PendingCount(chunks[..|chunks| - 1], documentId) + (if AwaitsEmbedding(chunks[|chunks| - 1], documentId) then 1 else 0)
  }

  /** How many of those the provider embeds without error. */
  function SuccessCount(chunks: seq<Chunk>, documentId: DocId, api: EmbedApi): nat
  {
    if chunks == [] then 0
    else
      var c := chunks[|chunks| - 1];
      SuccessCount(chunks[..|chunks| - 1], documentId, api)
        + (if AwaitsEmbedding(c, documentId) && GenerateEmbedding(api, c.text).Success? then 1 else 0)
  }

  /**
   * The count the pass reports is exactly the drop in pending chunks: each
   * success leaves the pending set, each failure stays in it. So the count
   * never exceeds the number of pending chunks, and is 0 when none pends.
   */
  lemma {:induction false} SuccessCountIsPendingDrop(chunks: seq<Chunk>, documentId: DocId, api: EmbedApi)
    ensures SuccessCount(chunks, documentId, api) + PendingCount(EmbedPass(chunks, documentId, api), documentId)
         == PendingCount(chunks, documentId)
    ensures SuccessCount(chunks, documentId, api) <= PendingCount(chunks, documentId)
  {
    if chunks != [] {
      var init := chunks[..|chunks| - 1];
      SuccessCountIsPendingDrop(init, documentId, api);
      var r := EmbedPass(chunks, documentId, api);
      assert r[..|r| - 1] == EmbedPass(init, documentId, api);
    }
  }

  /** With no chunk pending the pass changes nothing. */
  lemma {:induction false} NothingPendingNothingChanges(chunks: seq<Chunk>, documentId: DocId, api: EmbedApi)
    requires PendingCount(chunks, documentId) == 0
    ensures EmbedPass(chunks, documentId, api) == chunks
    ensures SuccessCount(chunks, documentId, api) == 0
  {
    if chunks != [] {
      var init := chunks[..|chunks| - 1];
      NothingPendingNothingChanges(init, documentId, api);
      assert EmbedPass(chunks, documentId, api)[..|chunks| - 1] == EmbedPass(init, documentId, api);
    }
  }

  /**
   * A second pass, whatever the provider then answers, leaves every chunk
   * that has an embedding after the first pass as it is: it retries only the
   * chunks still null.
   */
  lemma RerunRetriesOnlyNull(chunks: seq<Chunk>, documentId: DocId, first: EmbedApi, second: EmbedApi)
    ensures var once := EmbedPass(chunks, documentId, first);
      forall i :: 0 <= i < |chunks| && once[i].embedding.Some? ==> EmbedPass(once, documentId, second)[i] == once[i]
  {
  }

  /**
   * `embed_document_chunks` (rag_service.py:33-54). The chunks of the
   * document with a null embedding get the provider's vector, one save
   * each; a chunk whose call fails keeps its null embedding and the loop
   * goes on. The result is the number of chunks embedded.
   */
  method EmbedDocumentChunks(store: Store, documentId: DocId, api: EmbedApi) returns (count: nat)
    requires store.Valid()
    modifies store`chunks
    ensures store.Valid()
    ensures store.chunks == EmbedPass(old(store.chunks), documentId, api)
    ensures count == SuccessCount(old(store.chunks), documentId, api)
  {
    ghost var before := store.chunks;
    if PendingCount(store.chunks, documentId) == 0 {
      NothingPendingNothingChanges(before, documentId, api);
      return 0;
    }
    count := 0;
    var i := 0;
    while i < |store.chunks|
      invariant 0 <= i <= |store.chunks| == |before|
      invariant forall k :: 0 <= k < i ==> store.chunks[k] == Embedded(before[k], documentId, api)
      invariant forall k :: i <= k < |before| ==> store.chunks[k] == before[k]
      invariant count == SuccessCount(before[..i], documentId, api)
    {
      var embedded := EmbedChunk(store, i, documentId, api);
      if embedded {
        count := count + 1;
      }
      assert before[..i + 1][..i] == before[..i];
      i := i + 1;
    }
    assert before[..i] == before;
    assert store.chunks == EmbedPass(before, documentId, api);
    EmbedPassKeepsKeys(before, documentId, api);
  }

  /** One pass of the loop body (rag_service.py:46-53): embed and save the `i`-th chunk if it is pending. */
  method EmbedChunk(store: Store, i: nat, documentId: DocId, api: EmbedApi) returns (embedded: bool)
    requires i < |store.chunks|
    modifies store`chunks
    ensures store.chunks == old(store.chunks)[i := Embedded(old(store.chunks)[i], documentId, api)]
    ensures embedded <==> AwaitsEmbedding(old(store.chunks)[i], documentId) && GenerateEmbedding(api, old(store.chunks)[i].text).Success?
  {
    var chunk := store.chunks[i];
    embedded := false;
    if AwaitsEmbedding(chunk, documentId) {
      var embedding := GenerateEmbedding(api, chunk.text);
      if embedding.Success? {
        store.chunks := store.chunks[i := chunk.(embedding := Some(embedding.value))];
        embedded := true;
      }
    }
  }

  /** Embedding changes no chunk's id or document. */
  lemma EmbedPassKeepsKeys(chunks: seq<Chunk>, documentId: DocId, api: EmbedApi)
    ensures forall i :: 0 <= i < |chunks| ==>
      EmbedPass(chunks, documentId, api)[i].id == chunks[i].id && EmbedPass(chunks, documentId, api)[i].document == chunks[i].document
  {
  }

  // ---------------------------------------------------------------------
  // search_similar_chunks

  /** One retrieved chunk with its document's title (fetched alongside it) and its similarity score. */
  datatype Hit = Hit(chunk: Chunk, title: string, score: real)

  /** `if document_ids:` — `None` and the empty list both leave the search unrestricted. */
  predicate Restricts(documentIds: Option<seq<DocId>>)
  {
    documentIds.Some? && documentIds.value != []
  }

  /** A chunk the search may return (rag_service.py:60-66). */
  predicate IsCandidate(c: Chunk, documents: map<DocId, Document>, userId: UserId, documentIds: Option<seq<DocId>>)
  {
    && c.document in documents
    && documents[c.document].owner == userId
    && c.embedding.Some?
    && (Restricts(documentIds) ==> c.document in documentIds.value)
  }

  /** The candidate chunks, in table order. */
  function Candidates(chunks: seq<Chunk>, documents: map<DocId, Document>, userId: UserId, documentIds: Option<seq<DocId>>): seq<Chunk>
  {
    if chunks == [] then []
    else
      var c := chunks[|chunks| - 1];
      Candidates(chunks[..|chunks| - 1], documents, userId, documentIds)
        + (if IsCandidate(c, documents, userId, documentIds) then [c] else [])
  }

  /** The candidates are exactly the chunks that pass the filter. */
  lemma {:induction false} CandidatesExact(chunks: seq<Chunk>, documents: map<DocId, Document>, userId: UserId, documentIds: Option<seq<DocId>>)
    ensures forall c :: c in Candidates(chunks, documents, userId, documentIds) <==> c in chunks && IsCandidate(c, documents, userId, documentIds)
  {
    if chunks != [] {
      var init := chunks[..|chunks| - 1];
      CandidatesExact(init, documents, userId, documentIds);
      assert chunks == init + [chunks[|chunks| - 1]];
    }
  }

  /** Chunk ids that increase along the table, as they do in a consistent database. */
  predicate IdsIncrease(chunks: seq<Chunk>)
  {
    forall i, j :: 0 <= i < j < |chunks| ==> chunks[i].id < chunks[j].id
  }

  /** Filtering keeps the table order, so candidate ids increase as the table's do. */
  lemma {:induction false} CandidatesKeepIdOrder(chunks: seq<Chunk>, documents: map<DocId, Document>, userId: UserId, documentIds: Option<seq<DocId>>)
    requires IdsIncrease(chunks)
    ensures IdsIncrease(Candidates(chunks, documents, userId, documentIds))
  {
    if chunks != [] {
      var init := chunks[..|chunks| - 1];
      var c := chunks[|chunks| - 1];
      CandidatesKeepIdOrder(init, documents, userId, documentIds);
      CandidatesExact(init, documents, userId, documentIds);
      var prev := Candidates(init, documents, userId, documentIds);
      forall k | 0 <= k < |prev|
        ensures prev[k].id < c.id
      {
        assert prev[k] in init;
      }
    }
  }

  /** Every embedding in the table, and every vector the provider returns, has `dim` coordinates. */
  ghost predicate OneDimension(chunks: seq<Chunk>, api: EmbedApi, dim: nat)
  {
    && (forall i :: 0 <= i < |chunks| && chunks[i].embedding.Some? ==> |chunks[i].embedding.value| == dim)
    && (forall s :: api(s).Success? ==> |api(s).value| == dim)
  }

  /** Candidates can be indexed: each has an embedding of the query's dimension and a document. */
  predicate Indexable(cands: seq<Chunk>, documents: map<DocId, Document>, query: Vector)
  {
    forall i :: 0 <= i < |cands| ==>
      cands[i].embedding.Some? && |cands[i].embedding.value| == |query| && cands[i].document in documents
  }

  lemma {:induction false} CandidatesIndexable(chunks: seq<Chunk>, documents: map<DocId, Document>, userId: UserId,
                                               documentIds: Option<seq<DocId>>, api: EmbedApi, dim: nat, query: Vector)
    requires OneDimension(chunks, api, dim) && |query| == dim
    ensures Indexable(Candidates(chunks, documents, userId, documentIds), documents, query)
  {
    CandidatesExact(chunks, documents, userId, documentIds);
    var cands := Candidates(chunks, documents, userId, documentIds);
    forall i | 0 <= i < |cands|
      ensures cands[i].embedding.Some? && |cands[i].embedding.value| == |query| && cands[i].document in documents
    {
      assert cands[i] in chunks;
    }
  }

  /** The candidates' embeddings, in candidate order (the matrix added to the index). */
  function Vectors(cands: seq<Chunk>): (vs: seq<Vector>)
    requires forall i :: 0 <= i < |cands| ==> cands[i].embedding.Some?
    ensures |vs| == |cands|
  {
    seq(|cands|, i requires 0 <= i < |cands| => cands[i].embedding.value)
  }

  function Min(a: int, b: int): int
  {
    if a <= b then a else b
  }

  /** The `k`-th hit of the index search (rag_service.py:76-80): the `k`-th nearest candidate and its score. */
  function HitAt(cands: seq<Chunk>, documents: map<DocId, Document>, query: Vector, order: seq<nat>, k: nat): Hit
    requires Indexable(cands, documents, query)
    requires k < |order| && order[k] < |cands|
  {
    var c := cands[order[k]];
    Hit(c, documents[c.document].title, Score(SqDist(c.embedding.value, query)))
  }

  /** The `min(top_k, |cands|)` nearest candidates, nearest first, with their scores. */
  function TopHits(cands: seq<Chunk>, documents: map<DocId, Document>, query: Vector, topK: nat): (r: seq<Hit>)
    requires Indexable(cands, documents, query)
    ensures |r| == Min(topK, |cands|)
    ensures forall i :: 0 <= i < |r| ==>
      r[i].chunk in cands && r[i].chunk.embedding.Some? && |r[i].chunk.embedding.value| == |query|
  {
    var order := Ranking(Vectors(cands), query);
    RankingIsNearestFirst(Vectors(cands), query);
    seq(Min(topK, |cands|), k requires 0 <= k < Min(topK, |cands|) => HitAt(cands, documents, query, order, k))
  }

  /** The top hits carry their titles and scores and come nearest first, scores falling. */
  lemma TopHitsNearestFirst(cands: seq<Chunk>, documents: map<DocId, Document>, q: Vector, topK: nat)
    requires Indexable(cands, documents, q)
    ensures var r := TopHits(cands, documents, q, topK);
      && (forall i :: 0 <= i < |r| ==> r[i].chunk in cands && r[i].title == documents[r[i].chunk.document].title
                                       && r[i].score == Score(SqDist(r[i].chunk.embedding.value, q))
                                       && 0.0 < r[i].score <= 1.0)
      && (forall i, j :: 0 <= i < j < |r| ==> SqDist(r[i].chunk.embedding.value, q) <= SqDist(r[j].chunk.embedding.value, q)
                                              && r[j].score <= r[i].score)
  {
    var vs := Vectors(cands);
    RankingIsNearestFirst(vs, q);
    var order := Ranking(vs, q);
    var r := TopHits(cands, documents, q, topK);
    forall i | 0 <= i < |r|
      ensures 0.0 < r[i].score <= 1.0
    {
      assert r[i].chunk == cands[order[i]];
      ScoreProperties(SqDist(r[i].chunk.embedding.value, q), 0.0);
    }
    forall i, j | 0 <= i < j < |r|
      ensures SqDist(r[i].chunk.embedding.value, q) <= SqDist(r[j].chunk.embedding.value, q)
      ensures r[j].score <= r[i].score
    {
      assert vs[order[i]] == r[i].chunk.embedding.value && vs[order[j]] == r[j].chunk.embedding.value;
      ScoreProperties(SqDist(r[i].chunk.embedding.value, q), SqDist(r[j].chunk.embedding.value, q));
    }
  }

  /** The index returns each candidate at most once: with distinct ids, no chunk is hit twice. */
  lemma TopHitsDistinct(cands: seq<Chunk>, documents: map<DocId, Document>, query: Vector, topK: nat)
    requires Indexable(cands, documents, query) && IdsIncrease(cands)
    ensures var r := TopHits(cands, documents, query, topK);
      forall i, j :: 0 <= i < j < |r| ==> r[i].chunk.id != r[j].chunk.id
  {
    var vs := Vectors(cands);
    RankingIsNearestFirst(vs, query);
    RankingListsEachOnce(vs, query);
    var order := Ranking(vs, query);
    var r := TopHits(cands, documents, query, topK);
    forall i, j | 0 <= i < j < |r|
      ensures r[i].chunk.id != r[j].chunk.id
    {
      assert r[i].chunk == cands[order[i]] && r[j].chunk == cands[order[j]];
      assert order[i] != order[j];
    }
  }

  /** What `search_similar_chunks(query, user_id, document_ids, top_k)` returns or raises. */
  function Search(chunks: seq<Chunk>, documents: map<DocId, Document>, query: string, userId: UserId,
                  documentIds: Option<seq<DocId>>, topK: nat, api: EmbedApi, dim: nat): Result<seq<Hit>>
    requires OneDimension(chunks, api, dim)
  {
    match GenerateEmbedding(api, query)
    case Failure(e) => Failure(e)
    case Success(q) =>
      var cands := Candidates(chunks, documents, userId, documentIds);
      if cands == [] then Success([])
      else
        CandidatesIndexable(chunks, documents, userId, documentIds, api, dim, q);
        Success(TopHits(cands, documents, q, topK))
  }

  /**
   * `search_similar_chunks` (rag_service.py:56-82): embed the query, collect
   * the candidates, rank them by distance and append the first
   * `min(top_k, |candidates|)` with their scores.
   */
  method SearchSimilarChunks(store: Store, query: string, userId: UserId, documentIds: Option<seq<DocId>>,
                             topK: nat, api: EmbedApi, dim: nat) returns (r: Result<seq<Hit>>)
    requires OneDimension(store.chunks, api, dim)
    ensures r == Search(store.chunks, store.documents, query, userId, documentIds, topK, api, dim)
  {
    var queryEmbedding := GenerateEmbedding(api, query);
    if queryEmbedding.Failure? {
      return Failure(queryEmbedding.error);
    }
    var q := queryEmbedding.value;
    var cands := Candidates(store.chunks, store.documents, userId, documentIds);
    if cands == [] {
      return Success([]);
    }
    CandidatesIndexable(store.chunks, store.documents, userId, documentIds, api, dim, q);
    var order := Ranking(Vectors(cands), q);
    RankingIsNearestFirst(Vectors(cands), q);
    var results := CollectHits(cands, store.documents, q, order, Min(topK, |cands|));
    assert results == TopHits(cands, store.documents, q, topK);
    return Success(results);
  }

  /** The loop of rag_service.py:79-80: one hit per ranked index, in rank order. */
  method CollectHits(cands: seq<Chunk>, documents: map<DocId, Document>, q: Vector, order: seq<nat>, n: nat)
    returns (results: seq<Hit>)
    requires Indexable(cands, documents, q)
    requires n <= |order| && forall k :: 0 <= k < |order| ==> order[k] < |cands|
    ensures |results| == n
    ensures forall k :: 0 <= k < n ==> results[k] == HitAt(cands, documents, q, order, k)
  {
    results := [];
    for k := 0 to n
      invariant |results| == k
      invariant forall j :: 0 <= j < k ==> results[j] == HitAt(cands, documents, q, order, j)
    {
      var c := cands[order[k]];
      results := results + [Hit(c, documents[c.document].title, Score(SqDist(c.embedding.value, q)))];
    }
  }

  /** The search fails exactly when embedding the query fails, with the wrapped message. */
  lemma SearchFailsOnlyOnQueryEmbedding(chunks: seq<Chunk>, documents: map<DocId, Document>, query: string, userId: UserId,
                                        documentIds: Option<seq<DocId>>, topK: nat, api: EmbedApi, dim: nat)
    requires OneDimension(chunks, api, dim)
    ensures var r := Search(chunks, documents, query, userId, documentIds, topK, api, dim);
      && (r.Failure? <==> api(query).Failure?)
      && (r.Failure? ==> r.error == "Error generating embedding: " + api(query).error)
  {
  }

  /**
   * A successful search returns `min(top_k, |candidates|)` hits, each a
   * candidate chunk with its document's title, nearest first, scored
   * `1 / (1 + d)`: scores lie in (0, 1] and never increase along the list.
   * When chunk ids are unique, as in a consistent database, no chunk is
   * returned twice.
   */
  lemma {:induction false} SearchNearestFirst(chunks: seq<Chunk>, documents: map<DocId, Document>, query: string, userId: UserId,
                                              documentIds: Option<seq<DocId>>, topK: nat, api: EmbedApi, dim: nat)
    requires OneDimension(chunks, api, dim)
    requires Search(chunks, documents, query, userId, documentIds, topK, api, dim).Success?
    ensures var r, cands, q := Search(chunks, documents, query, userId, documentIds, topK, api, dim).value,
                               Candidates(chunks, documents, userId, documentIds), api(query).value;
      && |r| == Min(topK, |cands|)
      && (forall i :: 0 <= i < |r| ==> r[i].chunk in chunks && IsCandidate(r[i].chunk, documents, userId, documentIds)
                                       && r[i].title == documents[r[i].chunk.document].title)
      && (forall i :: 0 <= i < |r| ==> |r[i].chunk.embedding.value| == |q|
                                       && r[i].score == Score(SqDist(r[i].chunk.embedding.value, q))
                                       && 0.0 < r[i].score <= 1.0)
      && (forall i, j :: 0 <= i < j < |r| ==> SqDist(r[i].chunk.embedding.value, q) <= SqDist(r[j].chunk.embedding.value, q)
                                              && r[j].score <= r[i].score)
      && (IdsIncrease(chunks) ==> forall i, j :: 0 <= i < j < |r| ==> r[i].chunk.id != r[j].chunk.id)
  {
    var q := api(query).value;
    var cands := Candidates(chunks, documents, userId, documentIds);
    CandidatesExact(chunks, documents, userId, documentIds);
    if cands != [] {
      CandidatesIndexable(chunks, documents, userId, documentIds, api, dim, q);
      TopHitsNearestFirst(cands, documents, q, topK);
      if IdsIncrease(chunks) {
        CandidatesKeepIdOrder(chunks, documents, userId, documentIds);
        TopHitsDistinct(cands, documents, q, topK);
      }
    }
  }

  /** Every candidate is among the top hits or at least as far from the query as each of them. */
  lemma TopHitsAreNearest(cands: seq<Chunk>, documents: map<DocId, Document>, q: Vector, topK: nat, m: nat)
    requires Indexable(cands, documents, q) && m < |cands|
    ensures var r := TopHits(cands, documents, q, topK);
      || (exists j :: 0 <= j < |r| && r[j].chunk == cands[m])
      || forall i :: 0 <= i < |r| ==> SqDist(r[i].chunk.embedding.value, q) <= SqDist(cands[m].embedding.value, q)
  {
    var vs := Vectors(cands);
    RankingIsNearestFirst(vs, q);
    RankingCoversAll(vs, q, m);
    var order := Ranking(vs, q);
    var p :| 0 <= p < |order| && order[p] == m;
    var r := TopHits(cands, documents, q, topK);
    if p < |r| {
      assert r[p].chunk == cands[m];
    } else {
      forall i | 0 <= i < |r|
        ensures SqDist(r[i].chunk.embedding.value, q) <= SqDist(cands[m].embedding.value, q)
      {
        assert vs[order[i]] == r[i].chunk.embedding.value && vs[m] == cands[m].embedding.value;
      }
    }
  }

  /**
   * The hits are the nearest candidates: no candidate left out of the
   * result is nearer to the query than any hit.
   */
  lemma SearchIsTopK(chunks: seq<Chunk>, documents: map<DocId, Document>, query: string, userId: UserId,
                     documentIds: Option<seq<DocId>>, topK: nat, api: EmbedApi, dim: nat, c: Chunk)
    requires OneDimension(chunks, api, dim)
    requires Search(chunks, documents, query, userId, documentIds, topK, api, dim).Success?
    requires c in chunks && IsCandidate(c, documents, userId, documentIds)
    requires forall h :: h in Search(chunks, documents, query, userId, documentIds, topK, api, dim).value ==> h.chunk != c
    ensures var r, q := Search(chunks, documents, query, userId, documentIds, topK, api, dim).value, api(query).value;
      && |c.embedding.value| == |q|
      && forall i :: 0 <= i < |r| ==>
           && r[i].chunk.embedding.Some? && |r[i].chunk.embedding.value| == |q|
           && SqDist(r[i].chunk.embedding.value, q) <= SqDist(c.embedding.value, q)
  {
    var q := api(query).value;
    var cands := Candidates(chunks, documents, userId, documentIds);
    CandidatesExact(chunks, documents, userId, documentIds);
    CandidatesIndexable(chunks, documents, userId, documentIds, api, dim, q);
    var m :| 0 <= m < |cands| && cands[m] == c;
    var r := TopHits(cands, documents, q, topK);
    assert Search(chunks, documents, query, userId, documentIds, topK, api, dim).value == r;
    TopHitsAreNearest(cands, documents, q, topK, m);
    forall j | 0 <= j < |r|
      ensures r[j].chunk != c
    {
      assert r[j] in r;
    }
  }

  // ---------------------------------------------------------------------
  // generate_answer

  /** One entry of the answer's `sources` list (rag_service.py:109-116). */
  datatype Source = Source(
    documentId: DocId,
    documentTitle: string,
    chunkId: nat,
    pageNumber: int,
    textPreview: string,
    similarityScore: real)

  /** The dictionary `generate_answer` returns (rag_service.py:120-125). */
  datatype Answer = Answer(answer: string, sources: seq<Source>, contextUsed: nat, model: string)

  /** The label the prompt asks the model to cite a hit by: its 1-based position. */
  function SourceNumber(i: nat): string
  {
    NatToString(i + 1)
  }

  /** Distinct positions get distinct source numbers, so every citation names one hit. */
  lemma SourceNumbersDistinct(i: nat, j: nat)
    requires i != j
    ensures SourceNumber(i) != SourceNumber(j)
  {
    NatToStringRoundTrip(i + 1);
    NatToStringRoundTrip(j + 1);
  }

  /** The context block of the `i`-th hit (rag_service.py:86). */
  function ContextBlock(i: nat, hit: Hit): string
  {
    "[Source " + SourceNumber(i) + " - " + hit.title + ", Page " + IntToString(hit.chunk.pageNumber) + "]:\n" + hit.chunk.text
  }

  function ContextBlocks(hits: seq<Hit>): (blocks: seq<string>)
    ensures |blocks| == |hits|
  {
    seq(|hits|, i requires 0 <= i < |hits| => ContextBlock(i, hits[i]))
  }

  /** The context text: the blocks in hit order, separated by blank lines (rag_service.py:86-87). */
  function ContextText(hits: seq<Hit>): string
  {
    Join(ContextBlocks(hits), "\n\n")
  }

  const SystemInstruction: string :=
    "You are an intelligent document assistant. Answer questions based ONLY on the provided context.\n"
    + "        Rules:\n"
    + "        1. Only use information from the context\n"
    + "        2. If answer not in context, say \"I don't have enough information\"\n"
    + "        3. Cite sources by referring to [Source X]\n"
    + "        4. Be concise and clear"

  /** The prompt sent to the language model (rag_service.py:89-102): the instructions, then the context, then the question. */
  function Prompt(question: string, context: string): string
  {
    PromptHead + context + PromptTail(question)
  }

  const PromptHead: string := SystemInstruction + "\n\n" + "Context:"

  const QuestionLabel: string := "\n        Question: "
  const AnswerRequest: string := "\n        Answer based on the context above"

  /** The end of the user prompt after the context (rag_service.py:97-98): the question, then the closing request. */
  function PromptTail(question: string): string
  {
    QuestionLabel + question + AnswerRequest
  }

  /** Every hit's block, text included, reaches the model. */
  lemma PromptCarriesContext(question: string, hits: seq<Hit>, i: nat)
    requires i < |hits|
    ensures IsInfix(ContextBlock(i, hits[i]), Prompt(question, ContextText(hits)))
  {
    JoinContainsParts(ContextBlocks(hits), "\n\n", i);
    InfixInContext(ContextBlock(i, hits[i]), PromptHead, ContextText(hits), PromptTail(question));
  }

  /** The question reaches the model. */
  lemma PromptCarriesQuestion(question: string, context: string)
    ensures IsInfix(question, Prompt(question, context))
  {
    assert OccursAt(question, question, 0);
    InfixInContext(question, QuestionLabel, question, AnswerRequest);
    InfixInSuffix(question, PromptHead + context, PromptTail(question));
  }

  /** `chunk.text[:200] + '...'`: at most 200 characters of the text, always followed by `...`. */
  function TextPreview(text: string): (p: string)
    ensures |p| == (if |text| < 200 then |text| else 200) + 3
    ensures p[..|p| - 3] == text[..|p| - 3] && p[|p| - 3..] == "..."
    ensures |text| <= 200 ==> p == text + "..."
  {
    Prefix(text, 200) + "..."
  }

  /** The source entry of one hit (rag_service.py:109-116). */
  function SourceOf(hit: Hit): Source
  {
    Source(hit.chunk.document, hit.title, hit.chunk.id, hit.chunk.pageNumber, TextPreview(hit.chunk.text), hit.score)
  }

  /**
   * `generate_answer` (rag_service.py:84-128). The conversation history
   * argument is unused by the source and is left out.
   */
  function GenerateAnswer(question: string, hits: seq<Hit>, llm: LlmApi, modelName: string): (r: Result<Answer>)
    ensures var reply := llm(Prompt(question, ContextText(hits)));
      && (r.Failure? <==> reply.Failure?)
      && (r.Failure? ==> r.error == "Error generating answer: " + reply.error)
      && (r.Success? ==> r.value.answer == reply.value && r.value.model == modelName && r.value.contextUsed == |hits|)
    ensures r.Success? ==>
      && |r.value.sources| == |hits|
      && forall i :: 0 <= i < |hits| ==>
        var s, h := r.value.sources[i], hits[i];
        && s.documentId == h.chunk.document && s.documentTitle == h.title && s.chunkId == h.chunk.id
        && s.pageNumber == h.chunk.pageNumber && s.similarityScore == h.score
        && s.textPreview == TextPreview(h.chunk.text)
  {
    match llm(Prompt(question, ContextText(hits)))
    case Failure(e) => Failure("Error generating answer: " + e)
    case Success(text) =>
      Success(Answer(text, seq(|hits|, i requires 0 <= i < |hits| => SourceOf(hits[i])), |hits|, modelName))
  }
}
