# Document ingestion and retrieval core of intelligent-doc-assistant

This Dafny project models the back end of a document question-answering
service. A user uploads a document. A background job, `process_document`,
takes the document through the states pending, processing, completed and
failed. On the way it extracts the document's text, cuts the text into
overlapping chunks and stores one chunk row per piece. When it completes,
it credits the owner's document counter and queues a second job,
`generate_embeddings`. That job asks an embedding provider for a vector per
chunk. At question time, `RAGService` embeds the question, ranks the user's
embedded chunks by L2 distance, and sends the nearest ones with the question
to a language model. The answer comes back with one cited source per chunk.

Modules (one file each):

- `Wrappers`: `Option` and `Result`.
- `PyStr`: the Python `str` operations the code relies on, with Python's
  semantics written out: `isspace`, `strip`, `split()`, slicing with index
  clamping, `rfind`, `join`, `str(int)`.
- `Records`: the `Document` and `DocumentChunk` rows and the database.
  - `Db` is the database as a value.
  - `Store` is the live database as a class whose fields the jobs update.
- `DocumentProcessor`: `backend/documents/utils.py`.
- `VectorIndex`: an exact stand-in for the flat L2 index.
- `RagService`: `backend/qa/services/rag_service.py`.
- `Tasks`: `backend/documents/task.py`.

How the model is built:

- The imperative code is modelled as methods with loops:
  - the chunker's `while` loop, over the normalised text;
  - the chunk-creation loop, which adds rows to the `Store`;
  - the embedding loop, which updates rows of the `Store`;
  - the hit-collection loop, over the ranked candidates.
- Each method is proved equal to a specification function. The properties
  are proved about those functions.
- Files, the parsers, the embedding provider, the language model, the clock
  and a database write that raises are parameters.

`chunk_text` does not always terminate. Take text whose normalised form is
longer than `chunk_size` and ends in a period, with `1 < overlap <
chunk_size` (the defaults are 1000 and 200). The final window is pulled back
to that period and restarts at `len(text) - overlap`, so the loop never
exits. `DocumentProcessor.ChunkTextDiverges` proves this for every fuel bound.
`Tasks.ProcessHangsOnFinalPeriod` shows the consequence: for such a DOCX
document the run never gets past `chunk_text` while the document is in state
processing. Each stuck pass appends the same final chunk again, so the
source's list grows until memory runs out; the model has no memory bound and
treats the case as non-termination. The model keeps the loop as written.

Where the code's evident intent and its behaviour differ, the model follows
the code:

- PDF extraction always fails. The bare `PdfReader(file)` call on
  `backend/documents/utils.py:16` names something that is not imported. Once
  PyPDF2 has read the file on line 15, the resulting `NameError` is caught and
  re-raised wrapped in the message "Error extracting text from PDF: ..."; an
  open or read error gives its own message, wrapped the same way.
- `txt` and `md` files fail with an `AttributeError`. `extract_text_from_txt`
  does not exist.
- So only DOCX files can complete.

## Model

| member | source | states |
|---|---|---|
| PyStr.LeadingSpaces | backend/documents/utils.py:41 | the whitespace prefix that `strip` removes: all whitespace, followed by a non-space |
| PyStr.TrailingSpaces | backend/documents/utils.py:41 | the whitespace suffix that `strip` removes: all whitespace, preceded by a non-space |
| PyStr.Strip | backend/documents/utils.py:41 | `s.strip()` as `rstrip` after `lstrip`; definition only, its properties are the next four rows |
| PyStr.IsSpace | backend/documents/utils.py:41 | Python's `str.isspace` set, which is also what `\s` matches (lines 41, 57 and 69); definition only, used by every whitespace lemma below |
| PyStr.StripStart | backend/documents/utils.py:41 | `s.lstrip()`; definition only, characterised by `StripStartDropsLeadingSpaces` |
| PyStr.StripEnd | backend/documents/utils.py:41 | `s.rstrip()`; definition only, characterised by `StripEndDropsTrailingSpaces` |
| PyStr.StripStartDropsLeadingSpaces | backend/documents/utils.py:41 | `lstrip` drops exactly the whitespace prefix |
| PyStr.StripEndDropsTrailingSpaces | backend/documents/utils.py:41 | `rstrip` drops exactly the whitespace suffix |
| PyStr.StripIsSlice | backend/documents/utils.py:57 | `strip` returns the slice between the whitespace prefix and the whitespace suffix |
| PyStr.StripKeepsCore | backend/documents/utils.py:57 | the stripped text is a slice of the input; everything outside it is whitespace; it neither starts nor ends with whitespace; it is empty exactly for all-whitespace input |
| PyStr.Clamp | backend/documents/utils.py:53 | Python's normalisation of a slice or search bound: a negative index counts from the end and is floored at 0, and a bound past the length is cut to the length |
| PyStr.ClampSpread | backend/documents/utils.py:57 | normalised bounds are never further apart than the raw ones |
| PyStr.Slice | backend/documents/utils.py:57 | `s[i:j]` is the clamped slice, or empty when the clamped bounds cross |
| PyStr.Prefix | backend/qa/services/rag_service.py:114 | `s[:n]` for `n >= 0`: the first `min(n, len(s))` characters of `s` |
| PyStr.SliceOfSlice | backend/documents/utils.py:57 | a slice of a slice is a slice of the original at shifted offsets |
| PyStr.LastIndexInIsLast | backend/documents/utils.py:53 | the search result is -1 or an occurrence inside the range, and no occurrence lies after it |
| PyStr.RFind | backend/documents/utils.py:53 | `s.rfind(c, i, j)`: the last-occurrence search over the clamped range; definition only, characterised by `PyStr.RFindIsLast` |
| PyStr.RFindIsLast | backend/documents/utils.py:53 | `rfind(c, start, end)` is -1 or the last occurrence in the clamped range |
| PyStr.WordLength | backend/documents/utils.py:69 | the leading word is a maximal run of non-space characters |
| PyStr.Split | backend/documents/utils.py:69 | `split()` yields non-empty words without whitespace; the lemmas below fix which words, in which order |
| PyStr.SplitSkipsSpace | backend/documents/utils.py:41-69 | a whitespace character in front adds no word |
| PyStr.SplitConsWord | backend/documents/utils.py:41-69 | a non-space character in front is a word of its own before a space or the end, and otherwise joins the first word |
| PyStr.SplitCons | backend/documents/utils.py:41-69 | texts with the same words that agree on starting with a word keep the same words under a common first character |
| PyStr.SplitFirstWord | backend/documents/utils.py:69 | text that starts with a word splits into its maximal leading run of non-space characters and the words of the rest |
| PyStr.SplitAfterGap | backend/documents/utils.py:69 | after the first word and one space the remaining words follow, and there is at least one |
| PyStr.SplitSkipsLeadingSpaces | backend/documents/utils.py:41-69 | the whitespace prefix adds no word |
| PyStr.SplitDropsTrailingSpaces | backend/documents/utils.py:41-69 | trailing whitespace adds no word |
| PyStr.SplitIgnoresStrip | backend/documents/utils.py:41 | `strip` keeps the words |
| PyStr.SplitWordThen | backend/documents/utils.py:69 | a word followed by whitespace or the end comes out as the first word |
| PyStr.Join | backend/qa/services/rag_service.py:86-87 | `sep.join(xs)`: the parts in order with the separator between neighbours; definition only, characterised by the next three rows |
| PyStr.JoinCons | backend/qa/services/rag_service.py:86-87 | joining `[w] + ws` gives `w`, the separator, then the join of `ws` |
| PyStr.SplitJoinRoundTrip | backend/documents/utils.py:41-69 | joining words with single spaces and splitting again gives back the same words |
| PyStr.InfixInContext | backend/qa/services/rag_service.py:96-102 | a substring stays a substring when text is added on both sides |
| PyStr.InfixInSuffix | backend/qa/services/rag_service.py:102 | a substring stays a substring when text is put in front |
| PyStr.JoinContainsParts | backend/qa/services/rag_service.py:86-87 | each part of `sep.join(parts)` occurs in the result |
| PyStr.NatToString | backend/qa/services/rag_service.py:86 | `str(n)` is non-empty and all digits, with no leading zero |
| PyStr.NatToStringRoundTrip | backend/qa/services/rag_service.py:86 | reading back the digits of `str(n)` gives `n` |
| PyStr.IntToString | backend/qa/services/rag_service.py:86 | `str(i)` for the page number in the f-string; definition only, characterised by `IntToStringRoundTrip` |
| PyStr.IntToStringRoundTrip | backend/qa/services/rag_service.py:86 | `str(i)` starts with a minus sign exactly for negative `i`, and its digits read back to the magnitude of `i` |
| DocumentProcessor.Collapse | backend/documents/utils.py:41 | `re.sub(r'\s+', ' ', s)`: no longer than the input; its only whitespace is single spaces; all-whitespace exactly when the input is |
| DocumentProcessor.CollapseKeepsWords | backend/documents/utils.py:41 | collapsing whitespace keeps every word, in order |
| DocumentProcessor.Normalize | backend/documents/utils.py:41 | `re.sub(r'\s+', ' ', text).strip()`; definition only, characterised by the next rows |
| DocumentProcessor.NormalizeIsNormalized | backend/documents/utils.py:41 | normalised text has no outer whitespace and only single spaces inside; it is empty exactly for all-whitespace input |
| DocumentProcessor.NormalizedSuffix | backend/documents/utils.py:41 | what follows a space inside normalised text is normalised |
| DocumentProcessor.NormalizedWordGap | backend/documents/utils.py:41 | in normalised text a word that is not the last is followed by exactly one space and the next word |
| DocumentProcessor.NormalizedIsJoinedWords | backend/documents/utils.py:41 | normalised text equals its words joined by single spaces |
| DocumentProcessor.NormalizeJoinsWords | backend/documents/utils.py:41 | normalisation keeps the words of the text in order and is `' '.join(text.split())` |
| DocumentProcessor.WindowEnd | backend/documents/utils.py:50-55 | the end of the window at `start`; definition only, characterised by `WindowEndCut` |
| DocumentProcessor.WindowEndCut | backend/documents/utils.py:50-55 | a window short of the end ends at `start + chunk_size`; a window reaching the end is cut just after the text's last period when that period lies after `start` |
| DocumentProcessor.Piece | backend/documents/utils.py:57 | the stripped text of the window from `start` to its end; definition only, characterised by `PieceWellFormed` and `FirstWindow` |
| DocumentProcessor.Emitted | backend/documents/utils.py:57-60 | what one window appends: its piece when non-empty, else nothing; definition only, characterised by `PiecesStep` and `NextWindow` |
| DocumentProcessor.Sweep | backend/documents/utils.py:49-62 | the window starts the `while` loop visits, or `None` when it has not exited within `fuel` windows; definition only, characterised by the lemmas below |
| DocumentProcessor.Pieces | backend/documents/utils.py:57-60 | the chunks emitted for a list of window starts; definition only, characterised by `PiecesStep`, `PiecesKeepPrefix` and `PiecesWellFormed` |
| DocumentProcessor.Chunks | backend/documents/utils.py:39-64 | what `chunk_text` returns: `[text]` for short text, otherwise the pieces of the visited windows; definition only, characterised by `ChunksWellFormed`, `ChunkTextDiverges` and the lemmas near them |
| DocumentProcessor.SweepStep | backend/documents/utils.py:49-62 | one iteration moves the start to the window's end minus the overlap and records the window |
| DocumentProcessor.PiecesStep | backend/documents/utils.py:57-60 | one more window appends its stripped text, unless that text is empty |
| DocumentProcessor.NextWindow | backend/documents/utils.py:50-60 | the loop body computes the window end and appends the window's stripped text when non-empty |
| DocumentProcessor.ChunkText | backend/documents/utils.py:39-64 | the method returns what `Chunks` gives for the same fuel |
| DocumentProcessor.SweepKeepsPrefix | backend/documents/utils.py:49-62 | the loop only appends window starts |
| DocumentProcessor.PiecesKeepPrefix | backend/documents/utils.py:59-60 | more windows only append chunks |
| DocumentProcessor.WindowWithinChunkSize | backend/documents/utils.py:50-57 | a window never spans more than `chunk_size` characters |
| DocumentProcessor.SliceKeepsSpacing | backend/documents/utils.py:41-57 | a slice of normalised text keeps its single-space shape |
| DocumentProcessor.StrippedSliceNormalized | backend/documents/utils.py:57 | a stripped slice of normalised text is normalised and occurs in the text |
| DocumentProcessor.PieceWellFormed | backend/documents/utils.py:57-60 | every non-empty window text is normalised, at most `chunk_size` long and a substring of the text |
| DocumentProcessor.PiecesWellFormed | backend/documents/utils.py:49-62 | every chunk the loop emits is well formed |
| DocumentProcessor.FirstWindow | backend/documents/utils.py:50-57 | for long text the first window is cut at exactly `chunk_size` and yields a chunk |
| DocumentProcessor.LongTextChunks | backend/documents/utils.py:46-64 | for long text the result is non-empty, starts with the stripped first window, and every chunk is well formed |
| DocumentProcessor.ChunksWellFormed | backend/documents/utils.py:39-64 | short text comes back as the single chunk `[text]`; long text comes back as well-formed chunks, the first one being the first window |
| DocumentProcessor.BlankTextIsOneEmptyChunk | backend/documents/utils.py:41-44 | empty or all-whitespace input yields `[""]` |
| DocumentProcessor.FinalWindowEndsAtPeriod | backend/documents/utils.py:52-55 | when the text ends in a period, a window reaching the end is cut exactly at the end |
| DocumentProcessor.StuckOnFinalPeriod | backend/documents/utils.py:49-62 | from every start up to `len(text) - overlap`, the loop never exits when the text ends in a period and `1 < overlap < chunk_size` |
| DocumentProcessor.ChunkTextDiverges | backend/documents/utils.py:39-64 | `chunk_text` does not return on long normalised text ending in a period |
| DocumentProcessor.DefaultChunkTextDiverges | backend/documents/utils.py:39 | the same with the defaults 1000 and 200 |
| DocumentProcessor.NoPeriodNoPullBack | backend/documents/utils.py:50-55 | without a period, every window ends at `start + chunk_size` |
| DocumentProcessor.FinishesWithoutPullBack | backend/documents/utils.py:49-62 | when no window is pulled back, the loop exits within `len(text) - start` windows |
| DocumentProcessor.ChunkTextTerminatesWithoutPeriod | backend/documents/utils.py:39-64 | on text without a period, `chunk_text` returns within `len(text)` windows |
| DocumentProcessor.SweepFuelIrrelevant | backend/documents/utils.py:49-62 | the iteration bound decides only whether the loop is seen to exit, never what it returns |
| DocumentProcessor.ChunksFuelIrrelevant | backend/documents/utils.py:39-64 | the same for `chunk_text` |
| DocumentProcessor.CountWords | backend/documents/utils.py:67-69 | the number of word starts; definition only, shown equal to `len(text.split())` by `CountWordsCountsRuns` |
| DocumentProcessor.WordStartsSkipSpaces | backend/documents/utils.py:69 | leading whitespace adds no word |
| DocumentProcessor.WordStartsInsideWord | backend/documents/utils.py:69 | the rest of a word adds no word |
| DocumentProcessor.CountWordsCountsRuns | backend/documents/utils.py:67-69 | the word count is `len(text.split())` |
| DocumentProcessor.CountWordsZero | backend/documents/utils.py:67-69 | the word count is 0 exactly for empty or all-whitespace text |
| DocumentProcessor.DocxPageCount | backend/documents/utils.py:33-34 | `max(1, n // 20)`: at least one page, 20 paragraphs a page, one page below 40 paragraphs |
| DocumentProcessor.NonEmpty | backend/documents/utils.py:32 | every kept paragraph is non-empty and from the input, and every non-empty paragraph is kept; order and repetitions are fixed by `NonEmptyKeepsOrder` |
| DocumentProcessor.NonEmptyDistributes | backend/documents/utils.py:32 | filtering a concatenation gives the concatenation of the filtered parts |
| DocumentProcessor.NonEmptyKeepsOrder | backend/documents/utils.py:32 | a single paragraph is kept exactly when non-empty, and filtering distributes over concatenation, which fixes the result with order and repetitions |
| DocumentProcessor.ExtractDocx | backend/documents/utils.py:27-36 | the text is the non-empty paragraphs joined by blank lines, with the page estimate `max(1, len(paragraphs) // 20)` over all paragraphs, empty ones included; a read error becomes the DOCX error message |
| DocumentProcessor.ExtractPdf | backend/documents/utils.py:10-24 | extraction always fails: with the open or read error, or else with the `NameError` from line 16, wrapped in the PDF message |
| VectorIndex.SqDist | backend/qa/services/rag_service.py:74-76 | the L2 distance the index reports is never negative |
| VectorIndex.Score | backend/qa/services/rag_service.py:77 | `1 / (1 + d)`; definition only, characterised by `ScoreProperties` |
| VectorIndex.ScoreProperties | backend/qa/services/rag_service.py:77 | `1 / (1 + d)` lies in (0, 1], is 1 exactly at distance 0, and falls strictly as the distance grows |
| VectorIndex.Range | backend/qa/services/rag_service.py:75 | the index positions `0 .. n-1` |
| VectorIndex.InsertByKey | backend/qa/services/rag_service.py:76 | insertion keeps indices in range |
| VectorIndex.SortByKey | backend/qa/services/rag_service.py:76 | sorting keeps indices in range |
| VectorIndex.InsertByKeyBounded | backend/qa/services/rag_service.py:76 | insertion keeps a lower bound on the keys |
| VectorIndex.ConsSorted | backend/qa/services/rag_service.py:76 | a smallest key in front keeps the list sorted |
| VectorIndex.InsertByKeyPermutes | backend/qa/services/rag_service.py:76 | insertion adds exactly the one index |
| VectorIndex.InsertByKeyKeepsOrder | backend/qa/services/rag_service.py:76 | insertion into a sorted list is sorted and adds exactly the index |
| VectorIndex.SortByKeyIsSortedPermutation | backend/qa/services/rag_service.py:76 | sorting yields a permutation in ascending key order |
| VectorIndex.Distances | backend/qa/services/rag_service.py:76 | one distance per indexed vector |
| VectorIndex.Ranking | backend/qa/services/rag_service.py:74-76 | the flat index's exhaustive search: all indices sorted by distance; definition only, characterised by the next rows |
| VectorIndex.RankingIsNearestFirst | backend/qa/services/rag_service.py:76 | the ranking is a permutation of all indices, nearest first |
| VectorIndex.RankingCoversAll | backend/qa/services/rag_service.py:76 | every indexed vector appears in the ranking |
| VectorIndex.RangeHasNoRepeats | backend/qa/services/rag_service.py:75 | each index occurs once among the added positions |
| VectorIndex.NoRepeatsDistinct | backend/qa/services/rag_service.py:76 | a list where no value occurs twice has pairwise different entries |
| VectorIndex.RankingListsEachOnce | backend/qa/services/rag_service.py:76 | the ranking never lists an index twice |
| RagService.GenerateEmbedding | backend/qa/services/rag_service.py:21-31 | the provider's vector, or its error wrapped as "Error generating embedding: ..." |
| RagService.AwaitsEmbedding | backend/qa/services/rag_service.py:35-38 | the query filter `document_id=..., embedding__isnull=True`: the chunk belongs to the document and has no embedding; definition only, it decides which chunks `Embedded` changes and is used by `SuccessCountIsPendingDrop` and `NothingPendingNothingChanges` |
| RagService.Embedded | backend/qa/services/rag_service.py:45-53 | one chunk after the loop visits it; definition only, characterised by `EmbedChunk`, `EmbedPassKeepsKeys` and `RerunRetriesOnlyNull` |
| RagService.EmbedPass | backend/qa/services/rag_service.py:33-54 | the pass keeps the chunk table's length |
| RagService.PendingCount | backend/qa/services/rag_service.py:40-41 | the size of the `AwaitsEmbedding` query set, behind `if not chunks.exists(): return 0`; definition only, characterised by `SuccessCountIsPendingDrop` and `NothingPendingNothingChanges` |
| RagService.SuccessCount | backend/qa/services/rag_service.py:43-54 | the count `embed_document_chunks` returns; definition only, characterised by `SuccessCountIsPendingDrop` |
| RagService.SuccessCountIsPendingDrop | backend/qa/services/rag_service.py:45-54 | the reported count equals the drop in null-embedding chunks of the document, so it never exceeds their number |
| RagService.NothingPendingNothingChanges | backend/qa/services/rag_service.py:40-41 | with no chunk pending, the pass changes nothing and reports 0 |
| RagService.RerunRetriesOnlyNull | backend/qa/services/rag_service.py:35-38 | a second pass leaves every chunk embedded by the first as it is |
| RagService.EmbedDocumentChunks | backend/qa/services/rag_service.py:33-54 | the loop leaves the table as the embedding pass specifies and returns the number of successes; a failing chunk keeps its null embedding |
| RagService.EmbedChunk | backend/qa/services/rag_service.py:46-53 | one chunk is embedded and saved exactly when it is pending and the provider succeeds |
| RagService.EmbedPassKeepsKeys | backend/qa/services/rag_service.py:50 | only the embedding field is written (`update_fields=['embedding']`) |
| RagService.Candidates | backend/qa/services/rag_service.py:60-68 | the filtered chunk list; definition only, characterised by `CandidatesExact` and `CandidatesKeepIdOrder` |
| RagService.Restricts | backend/qa/services/rag_service.py:65 | `if document_ids:`, false for `None` and for the empty list; definition only, used by `IsCandidate` |
| RagService.IsCandidate | backend/qa/services/rag_service.py:60-66 | the filter: the chunk's document exists and belongs to the user, the chunk has an embedding, and its document is listed when the ids restrict; definition only, tied to `Candidates` by `CandidatesExact` |
| RagService.CandidatesExact | backend/qa/services/rag_service.py:60-68 | the candidates are exactly the chunks of the user's documents that have an embedding and lie in the requested documents when a non-empty list is given |
| RagService.CandidatesIndexable | backend/qa/services/rag_service.py:73-75 | with one embedding dimension throughout, every candidate can be indexed |
| RagService.CandidatesKeepIdOrder | backend/qa/services/rag_service.py:60-68 | filtering keeps table order, so candidate ids increase when the table's do |
| RagService.Vectors | backend/qa/services/rag_service.py:73 | one vector per candidate |
| RagService.TopHits | backend/qa/services/rag_service.py:76-80 | `min(top_k, len(chunks))` hits, each a candidate |
| RagService.TopHitsNearestFirst | backend/qa/services/rag_service.py:76-80 | each hit carries its title and `1 / (1 + d)` in (0, 1]; distances never fall and scores never rise along the list |
| RagService.TopHitsDistinct | backend/qa/services/rag_service.py:76-80 | with distinct candidate ids, no chunk is hit twice |
| RagService.Search | backend/qa/services/rag_service.py:56-82 | what `search_similar_chunks` returns or raises; definition only, characterised by `SearchFailsOnlyOnQueryEmbedding`, `SearchNearestFirst` and `SearchIsTopK` |
| RagService.SearchSimilarChunks | backend/qa/services/rag_service.py:56-82 | the method returns what `Search` gives |
| RagService.CollectHits | backend/qa/services/rag_service.py:78-80 | one hit per ranked index, in rank order |
| RagService.HitAt | backend/qa/services/rag_service.py:79-80 | the `k`-th result: the `k`-th ranked candidate with its title and score; definition only, characterised by `TopHitsNearestFirst` and `CollectHits` |
| RagService.SearchFailsOnlyOnQueryEmbedding | backend/qa/services/rag_service.py:58 | the search raises exactly when embedding the query does, with the wrapped message |
| RagService.SearchNearestFirst | backend/qa/services/rag_service.py:56-82 | `min(top_k, candidates)` hits, each a candidate with its title, nearest first, scored `1 / (1 + d)` in (0, 1] with non-increasing scores; with unique chunk ids, as in a consistent database, no chunk appears twice |
| RagService.TopHitsAreNearest | backend/qa/services/rag_service.py:76 | each candidate is a hit, or at least as far as every hit |
| RagService.SearchIsTopK | backend/qa/services/rag_service.py:56-82 | no candidate left out is nearer to the query than any returned hit |
| RagService.SourceNumbersDistinct | backend/qa/services/rag_service.py:86 | distinct positions get distinct `[Source i+1]` labels |
| RagService.ContextBlock | backend/qa/services/rag_service.py:86 | `[Source i+1 - title, Page p]:` and the chunk text; definition only, used by `PromptCarriesContext` and `SourceNumbersDistinct` |
| RagService.ContextBlocks | backend/qa/services/rag_service.py:86-87 | one context block per hit |
| RagService.ContextText | backend/qa/services/rag_service.py:86-87 | the blocks joined by blank lines; definition only, characterised by `PromptCarriesContext` |
| RagService.Prompt | backend/qa/services/rag_service.py:89-102 | the instructions, then the context, then the question; definition only, characterised by `PromptCarriesContext` and `PromptCarriesQuestion` |
| RagService.PromptTail | backend/qa/services/rag_service.py:96-98 | the question line and the closing request, each on an indented line, after the context; definition only, used by `Prompt` and `PromptCarriesQuestion` |
| RagService.PromptCarriesContext | backend/qa/services/rag_service.py:86-102 | every hit's block reaches the model inside the prompt |
| RagService.PromptCarriesQuestion | backend/qa/services/rag_service.py:96-102 | the question reaches the model inside the prompt |
| RagService.TextPreview | backend/qa/services/rag_service.py:114 | at most the first 200 characters of the text, then "..." |
| RagService.SourceOf | backend/qa/services/rag_service.py:109-116 | the source entry of one hit: document id, title, chunk id, page, preview and score; definition only, used by `GenerateAnswer` |
| RagService.GenerateAnswer | backend/qa/services/rag_service.py:84-128 | fails exactly when the model fails, with the wrapped message; otherwise the answer is the model's text, with one source per hit in hit order, the model name and the context count |
| Tasks.Extract | backend/documents/task.py:18-25 | extraction succeeds exactly for a readable DOCX file, with at least one page |
| Tasks.PageNumber | backend/documents/task.py:40 | `(idx * page_count) // len(chunks) + 1`, or 1 without pages; definition only, characterised by the next three rows |
| Tasks.PageNumberBounds | backend/documents/task.py:40 | every chunk's page lies in `1 .. page_count`; it is 1 when there is no page count, and 1 for the first chunk |
| Tasks.PageNumberMonotone | backend/documents/task.py:40 | later chunks never sit on earlier pages |
| Tasks.PageNumberStep | backend/documents/task.py:40 | with at least as many pages as chunks, consecutive chunks get distinct pages; with at most as many, no page is skipped |
| Tasks.ChunkRecord | backend/documents/task.py:36-41 | the row created for one piece; definition only, characterised by `ChunkRecordsWellFormed` |
| Tasks.ChunkRecords | backend/documents/task.py:35-41 | one row per created chunk |
| Tasks.ChunkRecordsWellFormed | backend/documents/task.py:35-41 | the rows belong to the document, hold the pieces in order under indices 0, 1, ..., have fresh ids and no embedding, and their pages start at 1 and never decrease |
| Tasks.CreatedCount | backend/documents/task.py:35-41 | every piece gets a row unless creating one raises, and then only the rows before it exist |
| Tasks.Process | backend/documents/task.py:6-63 | the database after one run and how it ends; definition only, characterised by the `Process...` lemmas |
| Tasks.Save | backend/documents/task.py:12 | `document.save()` replaces the document's row; definition only, characterised by `SaveKeepsConsistent` and `ProcessTouchesOnlyItsRow` |
| Tasks.MarkFailed | backend/documents/task.py:60-61 | the handler's update: status failed and the error recorded; definition only, characterised by `ProcessStatus` and `ProcessFailsBeforeChunking` |
| Tasks.Fail | backend/documents/task.py:59-63 | the handler saves the failed row and returns the error message; definition only, characterised by `ProcessFailsBeforeChunking` |
| Tasks.Filled | backend/documents/task.py:28-30 | the in-memory record with the extracted text, page count and word count; definition only, characterised by `ProcessOnlyDocxCompletes` |
| Tasks.MissingMessage | backend/documents/task.py:58 | "Document with ID ... does not exist."; definition only, characterised by `ProcessMissingDocument` |
| Tasks.SuccessMessage | backend/documents/task.py:55 | "Document ... processed successfully."; definition only, characterised by `ProcessStatus` |
| Tasks.ErrorMessage | backend/documents/task.py:63 | "Error processing document ...: ..."; definition only, characterised by `ProcessStatus` and `ProcessFailsBeforeChunking` |
| Tasks.Continue | backend/documents/task.py:33 | a run past the chunker, still running while it loops; definition only, characterised by `ContinueEffects` |
| Tasks.Finish | backend/documents/task.py:35-55 | a run once the text is chunked; definition only, characterised by `FinishEffects` |
| Tasks.Credit | backend/documents/task.py:48-50 | the owner's `total_documents` plus one; definition only, characterised by `FinishEffects` and `ProcessCreditsOwner` |
| Tasks.ProcessDocument | backend/documents/task.py:6-63 | the job leaves the database and returns the message that `Process` gives, and keeps the database consistent |
| Tasks.StoreChunks | backend/documents/task.py:35-55 | the chunks, completion, credit and queueing against the live database are what `Finish` gives |
| Tasks.CreateChunks | backend/documents/task.py:35-41 | the loop appends exactly the records of the first `k` pieces |
| Tasks.SaveKeepsConsistent | backend/documents/task.py:12 | saving a row with the same owner keeps the database consistent |
| Tasks.AppendKeepsConsistent | backend/documents/task.py:36-41 | appending the chunk rows keeps ids fresh and increasing |
| Tasks.FinishKeepsConsistent | backend/documents/task.py:35-55 | the end of a run keeps the database consistent |
| Tasks.ContinueKeepsConsistent | backend/documents/task.py:33-55 | the same from the chunking step on |
| Tasks.ProcessKeepsConsistent | backend/documents/task.py:6-63 | a run never breaks owners, foreign keys or chunk-id freshness |
| Tasks.FinishEffects | backend/documents/task.py:35-63 | after chunking, the run ends completed or failed; `k` rows are added, all unless a creation raises; the owner is credited only when all rows exist; only a completed run queues the job |
| Tasks.ContinueEffects | backend/documents/task.py:33 | while the chunker loops nothing more is written |
| Tasks.ProcessMissingDocument | backend/documents/task.py:57-58 | a missing document changes nothing and gets the "does not exist" message |
| Tasks.ProcessTouchesOnlyItsRow | backend/documents/task.py:10-62 | a run writes only its own document's row and never changes its owner, title or file type |
| Tasks.ProcessStatus | backend/documents/task.py:11-63 | a run never leaves the document pending; processing means the run has not returned; completed comes with the success message; failed comes with the recorded error in the message |
| Tasks.ProcessAppendsChunks | backend/documents/task.py:33-41 | a run only appends the rows of the chunker's pieces of the recorded text, each belonging to the document, indexed densely and without an embedding; a completed run appends all of them |
| Tasks.ProcessCreditsOwner | backend/documents/task.py:43-50 | the owner's counter goes up by one or stays; it goes up on every completed run, and only when all chunks exist and the completion time is set |
| Tasks.ProcessSchedulesOnlyCompleted | backend/documents/task.py:53 | the embedding job is queued once, exactly by a completed run |
| Tasks.ProcessOnlyDocxCompletes | backend/documents/task.py:18-30 | only a readable DOCX file completes, with its extracted text, page estimate and word count saved |
| Tasks.ProcessFailsBeforeChunking | backend/documents/task.py:18-25 | PDF, txt, md, unknown types and unreadable DOCX files are saved as failed with the raised message, and nothing else changes |
| Tasks.ProcessKeepsPartialChunks | backend/documents/task.py:35-41 | when creating chunk `i` raises, the `i` rows before it stay, and the document fails uncredited and without a queued job |
| Tasks.ProcessScheduleFailureKeepsCredit | backend/documents/task.py:48-53 | when queueing the job raises, the already counted document is saved as failed, the credit and the chunks stay, and no job is queued |
| Tasks.ProcessHangsOnFinalPeriod | backend/documents/task.py:33 | a DOCX file whose long normalised text ends in a period leaves the run stuck in `chunk_text`, with the document processing |
| Tasks.GenerateEmbeddings | backend/documents/task.py:65-75 | the job runs the embedding pass and reports its count, or reports the setup error and changes nothing |
| Tasks.EmbeddingsMessage | backend/documents/task.py:73 | "Generate n embeddings for document ..."; definition only, characterised by `EmbeddingsMessageReportsCount` |
| Tasks.EmbeddingsErrorMessage | backend/documents/task.py:75 | "Error generating embeddings: ..."; definition only, characterised by `EmbeddingsMessagesDistinct` |
| Tasks.EmbeddingsMessageReportsCount | backend/documents/task.py:73 | the count can be read back from the digits after "Generate " |
| Tasks.EmbeddingsMessagesDistinct | backend/documents/task.py:73-75 | the success and error messages never coincide |

## Left out

- File access and parsing: the PDF pages and DOCX paragraphs arrive as a parameter holding the parser's result or error message.
- The embedding provider (Gemini) and the language model are function parameters. No network, retries or floating-point rounding are modelled.
- RagService.EmbedApi: the provider is a function of the text alone, so within one pass two chunks with the same text always get the same outcome; a transient failure on one and a success on the other is not modelled.
- Vectors are real-valued and exact. faiss's float32 arithmetic and its order among equal distances are not modelled; any nearest-first order of ties is accepted.
- The embedding dimension: `RAGService` builds a 3072-dimension index, while the `DocumentChunk` field holds 768. The model requires one common dimension for stored and returned vectors (`OneDimension`), so this mismatch is a precondition, not a modelled failure.
- RagService.Candidates keeps table order. The ORM's query order (by document, then chunk index) is not modelled.
- RagService.Search: a `top_k` below 1 is not modelled faithfully. `top_k` is a natural number, so a negative value cannot be passed. With `top_k = 0` and at least one candidate, faiss's `Index.search` refuses k = 0 and `search_similar_chunks` raises, while the model returns `[]`. faiss's wrapper is not part of this model, and the only caller in the repository passes `top_k=5`.
- RagService.SearchFailsOnlyOnQueryEmbedding: for the same reason it does not cover the failure that faiss raises for `top_k = 0` when candidates exist.
- RagService.SearchSimilarChunks takes `top_k` as a natural number, with the same gap at 0.
- VectorIndex.SqDist: no lemma states that the distance is zero only for equal vectors.
- A null `page_number` is not modelled; chunk rows always get the page the task computes.
- The unused `conversation_history` argument of `generate_answer` is not modelled.
- Chunk ids are UUIDs in the source. The model draws fresh increasing numbers from `nextChunkId`.
- An id that is not a valid UUID makes `Document.objects.get` raise a validation error. The `except Exception` handler then reads the unbound `document` and raises again. This path is not modelled: ids are plain strings.
- Tasks.ProcessDocument: only two database writes can raise (creating a chunk and queueing the embedding job). Failures of the other saves, of `user.save()` and of the clock are not modelled.
- Tasks.ProcessDocument: a completed run leaves any earlier `processing_error` in place, as the source does. No lemma states this.
- Celery is modelled as the `scheduled` list of document ids. Queueing, retries, concurrency and two jobs on the same document are not modelled.
- `timezone.now()` is the `now` parameter.
- The `print` in the embedding loop is not modelled.
- Tasks.GenerateEmbeddings: the only exception it models is one raised while the service is set up; a database error inside the embedding pass is not modelled.
- DocumentProcessor.ChunkText: each stuck pass appends the same non-empty window again, so in the source the chunk list grows until memory runs out; the resulting `MemoryError` (caught by the task's handler, which would mark the document failed) or the killing of the worker is not modelled. The model treats this case as plain non-termination.
- DocumentProcessor.ChunkText: the source loop has no bound. A `fuel` parameter caps the number of windows, and `None` means the loop had not exited yet. `SweepFuelIrrelevant` shows that more fuel never changes a returned result.
- `extract_text_from_txt` does not exist in the source, so that path is the `AttributeError` failure, not a text reader.
- The views, serializers, admin, authentication and the front end are not part of this model.
