/**
 * The two background jobs of backend/documents/task.py: `process_document`,
 * which takes an uploaded document from `pending` through `processing` to
 * `completed` or `failed`, cutting its text into chunks, and
 * `generate_embeddings`, which the first queues once it has finished.
 *
 * The parsed file (`parsed`), the chunker's iteration budget (`fuel`), a
 * database write that raises (`fault`), the clock (`now`) and the embedding
 * provider (`api`) are parameters.
 */
module Tasks {
  import opened Wrappers
  import opened PyStr
  import opened Records
  import opened DocumentProcessor
  import opened RagService

  // ---------------------------------------------------------------------
  // Extraction dispatch (task.py:18-25)
  // ---------------------------------------------------------------------

  /** `str(e)` for the `AttributeError` raised by the call on task.py:23: the processor has no such method. */
  const TxtAttributeError := "'DocumentProcessor' object has no attribute 'extract_text_from_txt'"

  /**
   * The text and page count the task obtains for a document of type
   * `fileType`, or `str(e)` of the exception raised on the way. `parsed` is
   * what the parser library read from the file.
   */
  function Extract(fileType: string, parsed: Result<seq<string>>): (r: Result<(string, int)>)
    ensures r.Success? <==> fileType == "docx" && parsed.Success?
    ensures r.Success? ==> r.value.1 >= 1
  {
    if fileType == "pdf" then ExtractPdf(parsed)
    else if fileType == "docx" then ExtractDocx(parsed)
    else if fileType == "txt" || fileType == "md" then Failure(TxtAttributeError)
    else Failure("Unsupported file type: " + fileType)
  }

  // ---------------------------------------------------------------------
  // Chunk records (task.py:35-41)
  // ---------------------------------------------------------------------

  /** The page a chunk is attributed to: chunks are spread evenly over the pages, 1-based (task.py:40). */
  function PageNumber(idx: nat, pageCount: int, n: nat): int
    requires idx < n
  {
    if pageCount > 0 then (idx * pageCount) / n + 1 else 1
  }

  lemma MulMonotone(n: nat, x: int, y: int)
    requires x <= y
    ensures n * x <= n * y
  {
    assert n * y - n * x == n * (y - x);
  }

  lemma DivMonotone(a: nat, b: nat, n: nat)
    requires 0 < n && a <= b
    ensures a / n <= b / n
  {
    if a / n > b / n {
      MulMonotone(n, b / n + 1, a / n);
    }
  }

  lemma DivStepAtLeastOne(a: nat, p: nat, n: nat)
    requires 0 < n <= p
    ensures (a + p) / n >= a / n + 1
  {
    var q, s := a / n, (a + p) / n;
    assert n * q <= a;
    assert a + p < n * s + n;
    if s <= q {
      MulMonotone(n, s, q);
    }
  }

  lemma DivStepAtMostOne(a: nat, p: nat, n: nat)
    requires 0 < n && p <= n
    ensures (a + p) / n <= a / n + 1
  {
    var q, r := a / n, a % n;
    assert a == n * q + r && r < n;
    assert n * (q + 2) == n * q + 2 * n;
    var s := (a + p) / n;
    assert n * s <= a + p;
    if s >= q + 2 {
      MulMonotone(n, q + 2, s);
    }
  }

  lemma MulSucc(i: nat, p: int)
    ensures (i + 1) * p == i * p + p
  {
  }

  /** Every chunk lands on an existing page, and the first on page 1. */
  lemma PageNumberBounds(idx: nat, pageCount: int, n: nat)
    requires idx < n
    ensures 1 <= PageNumber(idx, pageCount, n)
    ensures pageCount > 0 ==> PageNumber(idx, pageCount, n) <= pageCount
    ensures pageCount <= 0 ==> PageNumber(idx, pageCount, n) == 1
    ensures idx == 0 ==> PageNumber(idx, pageCount, n) == 1
  {
    if pageCount > 0 {
      var a := idx * pageCount;
      MulMonotone(pageCount, idx, n - 1);
      assert a <= pageCount * n - pageCount;
      var q := a / n;
      if q >= pageCount {
        MulMonotone(n, pageCount, q);
        assert false;
      }
    }
  }

  /** Later chunks never sit on earlier pages. */
  lemma PageNumberMonotone(i: nat, j: nat, pageCount: int, n: nat)
    requires i <= j < n
    ensures PageNumber(i, pageCount, n) <= PageNumber(j, pageCount, n)
  {
    if pageCount > 0 {
      MulMonotone(pageCount, i, j);
      DivMonotone(i * pageCount, j * pageCount, n);
    }
  }

  /**
   * With at least as many pages as chunks, consecutive chunks land on
   * distinct pages; with at most as many, no page is skipped between them.
   */
  lemma PageNumberStep(i: nat, pageCount: int, n: nat)
    requires i + 1 < n
    ensures var d := PageNumber(i + 1, pageCount, n) - PageNumber(i, pageCount, n);
      && (pageCount >= n ==> d >= 1)
      && (pageCount <= n ==> d <= 1)
  {
    if pageCount > 0 {
      var a := i * pageCount;
      var b := (i + 1) * pageCount;
      assert b == a + pageCount by { MulSucc(i, pageCount); }
      assert PageNumber(i, pageCount, n) == a / n + 1;
      assert PageNumber(i + 1, pageCount, n) == b / n + 1;
      if pageCount >= n {
        DivStepAtLeastOne(a, pageCount, n);
      }
      if pageCount <= n {
        DivStepAtMostOne(a, pageCount, n);
      }
    }
  }

  /** The row `DocumentChunk.objects.create` inserts for the `idx`-th piece, under the next fresh id. */
  function ChunkRecord(documentId: DocId, firstId: nat, pieces: seq<string>, pageCount: int, idx: nat): Chunk
    requires idx < |pieces|
  {
    Chunk(firstId + idx, documentId, pieces[idx], idx, PageNumber(idx, pageCount, |pieces|), None)
  }

  /** The rows inserted for the first `k` pieces. */
  function ChunkRecords(documentId: DocId, firstId: nat, pieces: seq<string>, pageCount: int, k: nat): (r: seq<Chunk>)
    requires k <= |pieces|
    ensures |r| == k
  {
    seq(k, i requires 0 <= i < k => ChunkRecord(documentId, firstId, pieces, pageCount, i))
  }

  /**
   * The inserted rows belong to the document, carry the pieces in order
   * under the dense indices 0, 1, ..., fresh increasing ids and no
   * embedding, and walk forward through the pages from page 1.
   */
  lemma ChunkRecordsWellFormed(documentId: DocId, firstId: nat, pieces: seq<string>, pageCount: int, k: nat)
    requires k <= |pieces|
    ensures var r := ChunkRecords(documentId, firstId, pieces, pageCount, k);
      && (forall i :: 0 <= i < k ==>
        && r[i].document == documentId && r[i].text == pieces[i] && r[i].chunkIndex == i
        && r[i].id == firstId + i && r[i].embedding == None
        && 1 <= r[i].pageNumber && (pageCount > 0 ==> r[i].pageNumber <= pageCount))
      && (forall i, j :: 0 <= i <= j < k ==> r[i].pageNumber <= r[j].pageNumber)
      && (k > 0 ==> r[0].pageNumber == 1)
  {
    var r := ChunkRecords(documentId, firstId, pieces, pageCount, k);
    forall i | 0 <= i < k
      ensures 1 <= r[i].pageNumber && (pageCount > 0 ==> r[i].pageNumber <= pageCount)
    {
      PageNumberBounds(i, pageCount, |pieces|);
    }
    forall i, j | 0 <= i <= j < k
      ensures r[i].pageNumber <= r[j].pageNumber
    {
      PageNumberMonotone(i, j, pageCount, |pieces|);
    }
    if k > 0 {
      PageNumberBounds(0, pageCount, |pieces|);
    }
  }

  // ---------------------------------------------------------------------
  // process_document (task.py:6-63)
  // ---------------------------------------------------------------------

  /** A database write that raises while the task runs. */
  datatype Fault =
    | NoFault
      /** Creating the chunk with this index raises, with this message. */
    | CreateFails(index: nat, message: string)
      /** Queueing the embedding job raises, with this message. */
    | ScheduleFails(message: string)

  /** How a task run ends: the message it returns, or still inside the chunking loop when the fuel runs out. */
  datatype Outcome = Returned(message: string) | StillRunning

  function MissingMessage(documentId: DocId): string
  {
    "Document with ID " + documentId + " does not exist."
  }

  function SuccessMessage(documentId: DocId): string
  {
    "Document " + documentId + " processed successfully."
  }

  function ErrorMessage(documentId: DocId, error: string): string
  {
    "Error processing document " + documentId + ": " + error
  }

  /** The `except Exception` handler's update (task.py:60-61). */
  function MarkFailed(d: Document, error: string): Document
  {
    d.(status := Failed, processingError := Some(error))
  }

  /** How many chunks get created before the fault, if any, fires. */
  function CreatedCount(fault: Fault, n: nat): (k: nat)
    ensures k <= n
    ensures k < n <==> fault.CreateFails? && fault.index < n
  {
    if fault.CreateFails? && fault.index < n then fault.index else n
  }

  /** Writes `d` back as the row of document `documentId` (`document.save()`). */
  function Save(db: Db, documentId: DocId, d: Document): Db
  {
    db.(documents := db.documents[documentId := d])
  }

  /** The `except Exception` handler (task.py:59-63): the document is saved as failed with the message. */
  function Fail(db: Db, documentId: DocId, d: Document, error: string): (Db, Outcome)
  {
    (Save(db, documentId, MarkFailed(d, error)), Returned(ErrorMessage(documentId, error)))
  }

  /**
   * The database after one run of `process_document(documentId)` on `db`,
   * and how the run ends. The row is saved in state processing first
   * (task.py:11-12).
   */
  function Process(db: Db, documentId: DocId, parsed: Result<seq<string>>, fuel: nat, fault: Fault, now: Timestamp): (Db, Outcome)
    requires documentId in db.documents ==> db.documents[documentId].owner in db.totalDocuments
  {
    if documentId !in db.documents then (db, Returned(MissingMessage(documentId)))
    else
      var doc := db.documents[documentId].(status := Processing);
      match Extract(doc.fileType, parsed)
      case Failure(e) => Fail(Save(db, documentId, doc), documentId, doc, e)
      case Success(x) => Continue(Save(db, documentId, doc), documentId, Filled(doc, x), Chunks(x.0, DefaultChunkSize, DefaultOverlap, fuel), fault, now)
  }

  /** The in-memory record after task.py:28-30: the extracted text, page count and word count. */
  function Filled(doc: Document, extracted: (string, int)): Document
  {
    doc.(extractedText := extracted.0, pageCount := extracted.1, wordCount := CountWords(extracted.0))
  }

  /**
   * A run past task.py:33, given what `chunk_text` produced; the in-memory
   * record `filled` is not saved until the run ends.
   */
  function Continue(db: Db, documentId: DocId, filled: Document, chunks: Option<seq<string>>, fault: Fault, now: Timestamp): (Db, Outcome)
    requires filled.owner in db.totalDocuments
  {
    match chunks
    case None => (db, StillRunning)
    case Some(pieces) => Finish(db, documentId, filled, pieces, fault, now)
  }

  /** `user.total_documents += 1` (task.py:48-50). */
  function Credit(totals: map<UserId, int>, owner: UserId): map<UserId, int>
    requires owner in totals
  {
    totals[owner := totals[owner] + 1]
  }

  /**
   * The rest of a run once the text is chunked (task.py:35-55): the chunk
   * rows are created, then the document is completed, its owner credited
   * and the embedding job queued, unless a write raises on the way.
   */
  function Finish(db: Db, documentId: DocId, filled: Document, pieces: seq<string>, fault: Fault, now: Timestamp): (Db, Outcome)
    requires filled.owner in db.totalDocuments
  {
    var k := CreatedCount(fault, |pieces|);
    var stored := db.(chunks := db.chunks + ChunkRecords(documentId, db.nextChunkId, pieces, filled.pageCount, k),
                      nextChunkId := db.nextChunkId + k);
    if k < |pieces| then Fail(stored, documentId, filled, fault.message)
    else
      var done := filled.(status := Completed, processedAt := Some(now));
      var completed := Save(stored, documentId, done);
      var credited := completed.(totalDocuments := Credit(db.totalDocuments, filled.owner));
      if fault.ScheduleFails? then Fail(credited, documentId, done, fault.message)
      else (credited.(scheduled := db.scheduled + [documentId]), Returned(SuccessMessage(documentId)))
  }

  /** `process_document(documentId)`, run against the live database. */
  method ProcessDocument(store: Store, documentId: DocId, parsed: Result<seq<string>>, fuel: nat, fault: Fault, now: Timestamp)
    returns (outcome: Outcome)
    requires store.Valid()
    modifies store
    ensures store.Valid()
    ensures (store.Snapshot(), outcome) == Process(old(store.Snapshot()), documentId, parsed, fuel, fault, now)
  {
    ghost var db := store.Snapshot();
    ProcessKeepsConsistent(db, documentId, parsed, fuel, fault, now);
    if documentId !in store.documents {
      return Returned(MissingMessage(documentId));
    }
    var document := store.documents[documentId].(status := Processing);
    store.documents := store.documents[documentId := document];
    var extracted := Extract(document.fileType, parsed);
    if extracted.Failure? {
      store.documents := store.documents[documentId := MarkFailed(document, extracted.error)];
      return Returned(ErrorMessage(documentId, extracted.error));
    }
    var text := extracted.value.0;
    document := document.(extractedText := text, pageCount := extracted.value.1, wordCount := CountWords(text));
    var chunks := ChunkText(text, DefaultChunkSize, DefaultOverlap, fuel);
    if chunks.None? {
      return StillRunning;
    }
    outcome := StoreChunks(store, documentId, document, chunks.value, fault, now);
  }

  /** task.py:35-55 against the live database, once the document row holds `document` in state processing. */
  method StoreChunks(store: Store, documentId: DocId, document: Document, pieces: seq<string>, fault: Fault, now: Timestamp)
    returns (outcome: Outcome)
    requires documentId in store.documents && store.documents[documentId].owner == document.owner
    requires document.owner in store.totalDocuments
    modifies store
    ensures (store.Snapshot(), outcome) == Finish(old(store.Snapshot()), documentId, document, pieces, fault, now)
  {
    ghost var db := store.Snapshot();
    var k := CreatedCount(fault, |pieces|);
    CreateChunks(store, documentId, pieces, document.pageCount, k);
    ghost var stored := store.Snapshot();
    if k < |pieces| {
      store.documents := store.documents[documentId := MarkFailed(document, fault.message)];
      return Returned(ErrorMessage(documentId, fault.message));
    }
    var done := document.(status := Completed, processedAt := Some(now));
    store.documents := store.documents[documentId := done];
    var owner := document.owner;
    store.totalDocuments := store.totalDocuments[owner := store.totalDocuments[owner] + 1];
    if fault.ScheduleFails? {
      store.documents := store.documents[documentId := MarkFailed(done, fault.message)];
      return Returned(ErrorMessage(documentId, fault.message));
    }
    store.scheduled := store.scheduled + [documentId];
    return Returned(SuccessMessage(documentId));
  }

  /** The `for idx, chunk_text in enumerate(chunks)` loop (task.py:35-41), stopped after `k` rows. */
  method CreateChunks(store: Store, documentId: DocId, pieces: seq<string>, pageCount: int, k: nat)
    requires k <= |pieces|
    modifies store`chunks, store`nextChunkId
    ensures store.chunks == old(store.chunks) + ChunkRecords(documentId, old(store.nextChunkId), pieces, pageCount, k)
    ensures store.nextChunkId == old(store.nextChunkId) + k
  {
    ghost var before := store.chunks;
    var firstId := store.nextChunkId;
    for idx := 0 to k
      invariant store.chunks == before + ChunkRecords(documentId, firstId, pieces, pageCount, idx)
      invariant store.nextChunkId == firstId + idx
    {
      store.chunks := store.chunks + [Chunk(store.nextChunkId, documentId, pieces[idx], idx, PageNumber(idx, pageCount, |pieces|), None)];
      store.nextChunkId := store.nextChunkId + 1;
    }
  }

  lemma SaveKeepsConsistent(db: Db, documentId: DocId, d: Document)
    requires db.Consistent() && documentId in db.documents && d.owner == db.documents[documentId].owner
    ensures Save(db, documentId, d).Consistent()
  {
  }

  lemma AppendKeepsConsistent(db: Db, documentId: DocId, pieces: seq<string>, pageCount: int, k: nat)
    requires db.Consistent() && documentId in db.documents && k <= |pieces|
    ensures db.(chunks := db.chunks + ChunkRecords(documentId, db.nextChunkId, pieces, pageCount, k),
                nextChunkId := db.nextChunkId + k).Consistent()
  {
    var added := ChunkRecords(documentId, db.nextChunkId, pieces, pageCount, k);
    var all := db.chunks + added;
    assert forall i :: |db.chunks| <= i < |all| ==> all[i] == added[i - |db.chunks|];
  }

  lemma FinishKeepsConsistent(db: Db, documentId: DocId, filled: Document, pieces: seq<string>, fault: Fault, now: Timestamp)
    requires db.Consistent() && documentId in db.documents && filled.owner == db.documents[documentId].owner
    ensures filled.owner in db.totalDocuments
    ensures Finish(db, documentId, filled, pieces, fault, now).0.Consistent()
  {
    var k := CreatedCount(fault, |pieces|);
    AppendKeepsConsistent(db, documentId, pieces, filled.pageCount, k);
    var stored := db.(chunks := db.chunks + ChunkRecords(documentId, db.nextChunkId, pieces, filled.pageCount, k),
                      nextChunkId := db.nextChunkId + k);
    if k < |pieces| {
      SaveKeepsConsistent(stored, documentId, MarkFailed(filled, fault.message));
    } else {
      var done := filled.(status := Completed, processedAt := Some(now));
      SaveKeepsConsistent(stored, documentId, done);
      var credited := Save(stored, documentId, done).(totalDocuments := Credit(db.totalDocuments, filled.owner));
      assert credited.Consistent();
      if fault.ScheduleFails? {
        SaveKeepsConsistent(credited, documentId, MarkFailed(done, fault.message));
      }
    }
  }

  lemma ContinueKeepsConsistent(db: Db, documentId: DocId, filled: Document, chunks: Option<seq<string>>, fault: Fault, now: Timestamp)
    requires db.Consistent() && documentId in db.documents && filled.owner == db.documents[documentId].owner
    ensures filled.owner in db.totalDocuments
    ensures Continue(db, documentId, filled, chunks, fault, now).0.Consistent()
  {
    if chunks.Some? {
      FinishKeepsConsistent(db, documentId, filled, chunks.value, fault, now);
    }
  }

  /** A run never breaks the database's keys: documents keep their owners, new chunk ids are fresh. */
  lemma ProcessKeepsConsistent(db: Db, documentId: DocId, parsed: Result<seq<string>>, fuel: nat, fault: Fault, now: Timestamp)
    requires db.Consistent()
    ensures Process(db, documentId, parsed, fuel, fault, now).0.Consistent()
  {
    if documentId in db.documents {
      var doc := db.documents[documentId].(status := Processing);
      var saved := Save(db, documentId, doc);
      SaveKeepsConsistent(db, documentId, doc);
      match Extract(doc.fileType, parsed)
      case Failure(e) => SaveKeepsConsistent(saved, documentId, MarkFailed(doc, e));
      case Success(x) =>
        ContinueKeepsConsistent(saved, documentId, Filled(doc, x), Chunks(x.0, DefaultChunkSize, DefaultOverlap, fuel), fault, now);
    }
  }

  // ---------------------------------------------------------------------
  // What a run of process_document promises
  // ---------------------------------------------------------------------

  /**
   * Everything a run does once the text is chunked into `pieces`: `k`
   * chunk rows are created, all of them unless a creation raises; only
   * then is the owner credited, and only a run that completes queues the
   * embedding job.
   */
  lemma FinishEffects(db: Db, documentId: DocId, filled: Document, pieces: seq<string>, fault: Fault, now: Timestamp)
    requires filled.owner in db.totalDocuments && filled.status == Processing
    ensures var (db', out) := Finish(db, documentId, filled, pieces, fault, now);
      var k, d := |db'.chunks| - |db.chunks|, db'.documents[documentId];
      && db'.documents.Keys == db.documents.Keys + {documentId}
      && (forall id :: id in db.documents && id != documentId ==> db'.documents[id] == db.documents[id])
      && d.owner == filled.owner && d.title == filled.title && d.fileType == filled.fileType
      && d.extractedText == filled.extractedText && d.pageCount == filled.pageCount && d.wordCount == filled.wordCount
      && (d.status == Completed || d.status == Failed)
      && (d.status == Completed ==> out == Returned(SuccessMessage(documentId)) && d.processedAt == Some(now))
      && (d.status == Failed ==> d.processingError.Some? && out == Returned(ErrorMessage(documentId, d.processingError.value)))
      && 0 <= k <= |pieces|
      && db'.chunks == db.chunks + ChunkRecords(documentId, db.nextChunkId, pieces, filled.pageCount, k)
      && db'.nextChunkId == db.nextChunkId + k
      && (k < |pieces| <==> fault.CreateFails? && fault.index < |pieces|)
      && (k < |pieces| ==> k == fault.index && d == MarkFailed(filled, fault.message))
      && db'.totalDocuments == (if k == |pieces| then Credit(db.totalDocuments, filled.owner) else db.totalDocuments)
      && (k == |pieces| ==> d.processedAt == Some(now))
      && (d.status == Completed <==> k == |pieces| && !fault.ScheduleFails?)
      && db'.scheduled == (if d.status == Completed then db.scheduled + [documentId] else db.scheduled)
  {
    var k := CreatedCount(fault, |pieces|);
    var stored := db.(chunks := db.chunks + ChunkRecords(documentId, db.nextChunkId, pieces, filled.pageCount, k),
                      nextChunkId := db.nextChunkId + k);
    assert |stored.chunks| - |db.chunks| == k;
  }

  /** The same from the point `chunk_text` returns, or keeps looping. */
  lemma ContinueEffects(db: Db, documentId: DocId, filled: Document, chunks: Option<seq<string>>, fault: Fault, now: Timestamp)
    requires filled.owner in db.totalDocuments && filled.status == Processing
    requires documentId in db.documents
    ensures var (db', out) := Continue(db, documentId, filled, chunks, fault, now);
      && (chunks.None? ==> db' == db && out == StillRunning)
      && (chunks.Some? ==> (db', out) == Finish(db, documentId, filled, chunks.value, fault, now))
      && db'.documents.Keys == db.documents.Keys
  {
    if chunks.Some? {
      FinishEffects(db, documentId, filled, chunks.value, fault, now);
    }
  }

  /** A run on a missing document changes nothing and says so (task.py:57-58). */
  lemma ProcessMissingDocument(db: Db, documentId: DocId, parsed: Result<seq<string>>, fuel: nat, fault: Fault, now: Timestamp)
    requires documentId !in db.documents
    ensures Process(db, documentId, parsed, fuel, fault, now) == (db, Returned(MissingMessage(documentId)))
  {
  }

  /** A run writes only its own document's row, and never its owner, title or file type. */
  lemma ProcessTouchesOnlyItsRow(db: Db, documentId: DocId, parsed: Result<seq<string>>, fuel: nat, fault: Fault, now: Timestamp)
    requires db.Consistent() && documentId in db.documents
    ensures var db' := Process(db, documentId, parsed, fuel, fault, now).0;
      && db'.documents.Keys == db.documents.Keys
      && (forall id :: id in db.documents && id != documentId ==> db'.documents[id] == db.documents[id])
      && var d, d0 := db'.documents[documentId], db.documents[documentId];
      && d.owner == d0.owner && d.title == d0.title && d.fileType == d0.fileType
  {
    var doc := db.documents[documentId].(status := Processing);
    match Extract(doc.fileType, parsed)
    case Failure(e) =>
    case Success(x) =>
      var chunks := Chunks(x.0, DefaultChunkSize, DefaultOverlap, fuel);
      ContinueEffects(Save(db, documentId, doc), documentId, Filled(doc, x), chunks, fault, now);
      if chunks.Some? {
        FinishEffects(Save(db, documentId, doc), documentId, Filled(doc, x), chunks.value, fault, now);
      }
  }

  /**
   * The status machine: a run never leaves its document pending, and its
   * outcome tells which state it left it in: still processing while the
   * chunker loops, completed with the success message, or failed with the
   * error message carrying the recorded error.
   */
  lemma ProcessStatus(db: Db, documentId: DocId, parsed: Result<seq<string>>, fuel: nat, fault: Fault, now: Timestamp)
    requires db.Consistent() && documentId in db.documents
    ensures var (db', out) := Process(db, documentId, parsed, fuel, fault, now);
      var d := db'.documents[documentId];
      && d.status != Pending
      && (d.status == Processing <==> out == StillRunning)
      && (d.status == Completed ==> out == Returned(SuccessMessage(documentId)))
      && (d.status == Failed ==> d.processingError.Some? && out == Returned(ErrorMessage(documentId, d.processingError.value)))
  {
    var doc := db.documents[documentId].(status := Processing);
    match Extract(doc.fileType, parsed)
    case Failure(e) =>
    case Success(x) =>
      var chunks := Chunks(x.0, DefaultChunkSize, DefaultOverlap, fuel);
      ContinueEffects(Save(db, documentId, doc), documentId, Filled(doc, x), chunks, fault, now);
      if chunks.Some? {
        FinishEffects(Save(db, documentId, doc), documentId, Filled(doc, x), chunks.value, fault, now);
      }
  }

  /**
   * A run only appends chunk rows: the first `k` pieces that `chunk_text`
   * made of the recorded text, under fresh ids, each awaiting its
   * embedding; a completed run appends all of them, and a run that fails
   * before chunking appends none.
   */
  lemma ProcessAppendsChunks(db: Db, documentId: DocId, parsed: Result<seq<string>>, fuel: nat, fault: Fault, now: Timestamp)
    requires db.Consistent() && documentId in db.documents
    ensures var (db', out) := Process(db, documentId, parsed, fuel, fault, now);
      var d, k := db'.documents[documentId], |db'.chunks| - |db.chunks|;
      var pieces := Chunks(d.extractedText, DefaultChunkSize, DefaultOverlap, fuel);
      && k >= 0 && db.chunks <= db'.chunks && db'.nextChunkId == db.nextChunkId + k
      && (k > 0 || d.status == Completed ==>
            && pieces.Some? && k <= |pieces.value|
            && db'.chunks == db.chunks + ChunkRecords(documentId, db.nextChunkId, pieces.value, d.pageCount, k))
      && (d.status == Completed ==> k == |pieces.value|)
      && (forall i :: |db.chunks| <= i < |db'.chunks| ==>
            db'.chunks[i].document == documentId && db'.chunks[i].chunkIndex == i - |db.chunks| && db'.chunks[i].embedding == None)
  {
    var doc := db.documents[documentId].(status := Processing);
    match Extract(doc.fileType, parsed)
    case Failure(e) =>
    case Success(x) =>
      var chunks := Chunks(x.0, DefaultChunkSize, DefaultOverlap, fuel);
      ContinueEffects(Save(db, documentId, doc), documentId, Filled(doc, x), chunks, fault, now);
      if chunks.Some? {
        FinishEffects(Save(db, documentId, doc), documentId, Filled(doc, x), chunks.value, fault, now);
        var k := CreatedCount(fault, |chunks.value|);
        ChunkRecordsWellFormed(documentId, db.nextChunkId, chunks.value, Filled(doc, x).pageCount, k);
      }
  }

  /**
   * The owner's document count goes up by one exactly when every chunk was
   * created, and then the completion time is recorded: a completed run
   * always credits its owner, a run that fails before or while creating
   * chunks never does (task.py:43-50).
   */
  lemma ProcessCreditsOwner(db: Db, documentId: DocId, parsed: Result<seq<string>>, fuel: nat, fault: Fault, now: Timestamp)
    requires db.Consistent() && documentId in db.documents
    ensures var (db', out) := Process(db, documentId, parsed, fuel, fault, now);
      var d, owner := db'.documents[documentId], db.documents[documentId].owner;
      var pieces := Chunks(d.extractedText, DefaultChunkSize, DefaultOverlap, fuel);
      && (db'.totalDocuments == db.totalDocuments || db'.totalDocuments == Credit(db.totalDocuments, owner))
      && (d.status == Completed ==> db'.totalDocuments == Credit(db.totalDocuments, owner))
      && (db'.totalDocuments != db.totalDocuments ==>
            && d.processedAt == Some(now) && pieces.Some?
            && |db'.chunks| == |db.chunks| + |pieces.value|)
  {
    var doc := db.documents[documentId].(status := Processing);
    match Extract(doc.fileType, parsed)
    case Failure(e) =>
    case Success(x) =>
      var chunks := Chunks(x.0, DefaultChunkSize, DefaultOverlap, fuel);
      ContinueEffects(Save(db, documentId, doc), documentId, Filled(doc, x), chunks, fault, now);
      if chunks.Some? {
        FinishEffects(Save(db, documentId, doc), documentId, Filled(doc, x), chunks.value, fault, now);
      }
  }

  /** The embedding job is queued once, and only by a run that completes (task.py:53). */
  lemma ProcessSchedulesOnlyCompleted(db: Db, documentId: DocId, parsed: Result<seq<string>>, fuel: nat, fault: Fault, now: Timestamp)
    requires db.Consistent() && documentId in db.documents
    ensures var (db', out) := Process(db, documentId, parsed, fuel, fault, now);
      db'.scheduled == if db'.documents[documentId].status == Completed then db.scheduled + [documentId] else db.scheduled
  {
    var doc := db.documents[documentId].(status := Processing);
    match Extract(doc.fileType, parsed)
    case Failure(e) =>
    case Success(x) =>
      var chunks := Chunks(x.0, DefaultChunkSize, DefaultOverlap, fuel);
      ContinueEffects(Save(db, documentId, doc), documentId, Filled(doc, x), chunks, fault, now);
      if chunks.Some? {
        FinishEffects(Save(db, documentId, doc), documentId, Filled(doc, x), chunks.value, fault, now);
      }
  }

  /**
   * Only a DOCX file whose paragraphs were read completes, and its row then
   * holds the extracted text, the page estimate and the word count of that
   * text (task.py:18-30).
   */
  lemma ProcessOnlyDocxCompletes(db: Db, documentId: DocId, parsed: Result<seq<string>>, fuel: nat, fault: Fault, now: Timestamp)
    requires db.Consistent() && documentId in db.documents
    ensures var d := Process(db, documentId, parsed, fuel, fault, now).0.documents[documentId];
      d.status == Completed ==>
        && d.fileType == "docx" && parsed.Success?
        && d.extractedText == Join(NonEmpty(parsed.value), "\n\n")
        && d.pageCount == DocxPageCount(|parsed.value|)
        && d.wordCount == CountWords(d.extractedText)
  {
    var doc := db.documents[documentId].(status := Processing);
    match Extract(doc.fileType, parsed)
    case Failure(e) =>
    case Success(x) =>
      var chunks := Chunks(x.0, DefaultChunkSize, DefaultOverlap, fuel);
      ContinueEffects(Save(db, documentId, doc), documentId, Filled(doc, x), chunks, fault, now);
      if chunks.Some? {
        FinishEffects(Save(db, documentId, doc), documentId, Filled(doc, x), chunks.value, fault, now);
      }
  }

  /**
   * A run whose extraction raises (a PDF, whose reader is never imported; a
   * text or Markdown file, for which the processor has no method; an
   * unknown type; an unreadable DOCX) only saves the document as failed
   * with that exception's message: no chunk, credit or job.
   */
  lemma ProcessFailsBeforeChunking(db: Db, documentId: DocId, parsed: Result<seq<string>>, fuel: nat, fault: Fault, now: Timestamp)
    requires db.Consistent() && documentId in db.documents
    requires var ft := db.documents[documentId].fileType; ft != "docx" || parsed.Failure?
    ensures var ft := db.documents[documentId].fileType;
      var e := if ft == "pdf" then "Error extracting text from PDF: " + (if parsed.Failure? then parsed.error else PdfReaderNameError)
        else if ft == "docx" then "Error extracting text from DOCX: " + parsed.error
        else if ft == "txt" || ft == "md" then TxtAttributeError
        else "Unsupported file type: " + ft;
      Process(db, documentId, parsed, fuel, fault, now)
        == (Save(db, documentId, MarkFailed(db.documents[documentId].(status := Processing), e)), Returned(ErrorMessage(documentId, e)))
  {
    var doc := db.documents[documentId].(status := Processing);
    var ft := doc.fileType;
    var r := Extract(ft, parsed);
    if ft == "pdf" {
      assert r == ExtractPdf(parsed);
    } else if ft == "docx" {
      assert r == Failure("Error extracting text from DOCX: " + parsed.error);
    }
    var failed := MarkFailed(doc, r.error);
    assert Save(Save(db, documentId, doc), documentId, failed).documents == Save(db, documentId, failed).documents;
  }

  /**
   * When creating the chunk with index `i` raises, the `i` rows created
   * before it stay, and the document is saved as failed with the text it
   * had extracted, uncredited and without an embedding job.
   */
  lemma ProcessKeepsPartialChunks(db: Db, documentId: DocId, parsed: Result<seq<string>>, fuel: nat, i: nat, message: string, now: Timestamp)
    requires db.Consistent() && documentId in db.documents
    requires db.documents[documentId].fileType == "docx" && parsed.Success?
    requires var pieces := Chunks(Join(NonEmpty(parsed.value), "\n\n"), DefaultChunkSize, DefaultOverlap, fuel);
      pieces.Some? && i < |pieces.value|
    ensures var (db', out) := Process(db, documentId, parsed, fuel, CreateFails(i, message), now);
      var d := db'.documents[documentId];
      && |db'.chunks| == |db.chunks| + i
      && d.status == Failed && d.processingError == Some(message)
      && d.extractedText == Join(NonEmpty(parsed.value), "\n\n")
      && out == Returned(ErrorMessage(documentId, message))
      && db'.totalDocuments == db.totalDocuments && db'.scheduled == db.scheduled
  {
    var doc := db.documents[documentId].(status := Processing);
    var x := Extract(doc.fileType, parsed).value;
    var chunks := Chunks(x.0, DefaultChunkSize, DefaultOverlap, fuel);
    FinishEffects(Save(db, documentId, doc), documentId, Filled(doc, x), chunks.value, CreateFails(i, message), now);
  }

  /**
   * When queueing the embedding job raises, the document that was already
   * completed and counted is saved as failed: its owner stays credited,
   * all its chunks stay, and no job is queued.
   */
  lemma ProcessScheduleFailureKeepsCredit(db: Db, documentId: DocId, parsed: Result<seq<string>>, fuel: nat, message: string, now: Timestamp)
    requires db.Consistent() && documentId in db.documents
    requires db.documents[documentId].fileType == "docx" && parsed.Success?
    requires Chunks(Join(NonEmpty(parsed.value), "\n\n"), DefaultChunkSize, DefaultOverlap, fuel).Some?
    ensures var (db', out) := Process(db, documentId, parsed, fuel, ScheduleFails(message), now);
      var d, owner := db'.documents[documentId], db.documents[documentId].owner;
      var pieces := Chunks(d.extractedText, DefaultChunkSize, DefaultOverlap, fuel).value;
      && d.status == Failed && d.processingError == Some(message) && d.processedAt == Some(now)
      && db'.totalDocuments == Credit(db.totalDocuments, owner)
      && |db'.chunks| == |db.chunks| + |pieces|
      && db'.scheduled == db.scheduled
  {
    var doc := db.documents[documentId].(status := Processing);
    var x := Extract(doc.fileType, parsed).value;
    var chunks := Chunks(x.0, DefaultChunkSize, DefaultOverlap, fuel);
    FinishEffects(Save(db, documentId, doc), documentId, Filled(doc, x), chunks.value, ScheduleFails(message), now);
  }

  /**
   * A DOCX file whose normalised text is longer than one chunk and ends in a
   * period never gets past `chunk_text`: the run does not return while the
   * document is in state processing. (Running out of memory, which would end
   * the source's loop, is not modelled.)
   */
  lemma ProcessHangsOnFinalPeriod(db: Db, documentId: DocId, parsed: Result<seq<string>>, fuel: nat, fault: Fault, now: Timestamp)
    requires db.Consistent() && documentId in db.documents
    requires db.documents[documentId].fileType == "docx" && parsed.Success?
    requires var t := Normalize(Join(NonEmpty(parsed.value), "\n\n"));
      |t| > DefaultChunkSize && t[|t| - 1] == '.'
    ensures Process(db, documentId, parsed, fuel, fault, now)
         == (Save(db, documentId, db.documents[documentId].(status := Processing)), StillRunning)
  {
    DefaultChunkTextDiverges(Join(NonEmpty(parsed.value), "\n\n"), fuel);
  }

  // ---------------------------------------------------------------------
  // generate_embeddings (task.py:65-75)
  // ---------------------------------------------------------------------

  function EmbeddingsMessage(documentId: DocId, count: nat): string
  {
    "Generate " + NatToString(count) + " embeddings for document " + documentId
  }

  function EmbeddingsErrorMessage(error: string): string
  {
    "Error generating embeddings: " + error
  }

  /**
   * `generate_embeddings(documentId)`. `setupError` is the message of the
   * exception raised while the service is constructed (the provider's
   * configuration), if any. Errors of single chunks are caught inside the
   * embedding pass. A database error raised by the filter, `exists()` or the
   * iteration (rag_service.py:35-45) would reach the handler too; that path
   * is not modelled.
   */
  method GenerateEmbeddings(store: Store, documentId: DocId, api: EmbedApi, setupError: Option<string>) returns (message: string)
    requires store.Valid()
    modifies store`chunks
    ensures store.Valid()
    ensures setupError.Some? ==> store.chunks == old(store.chunks) && message == EmbeddingsErrorMessage(setupError.value)
    ensures setupError.None? ==>
      && store.chunks == EmbedPass(old(store.chunks), documentId, api)
      && message == EmbeddingsMessage(documentId, SuccessCount(old(store.chunks), documentId, api))
  {
    if setupError.Some? {
      return EmbeddingsErrorMessage(setupError.value);
    }
    var count := EmbedDocumentChunks(store, documentId, api);
    message := EmbeddingsMessage(documentId, count);
  }

  /** The count can be read back from the job's message: its digits follow "Generate ". */
  lemma EmbeddingsMessageReportsCount(documentId: DocId, count: nat)
    ensures var m, n := EmbeddingsMessage(documentId, count), |NatToString(count)|;
      && 9 + n < |m| && m[..9] == "Generate " && m[9 + n] == ' '
      && (forall i :: 9 <= i < 9 + n ==> '0' <= m[i] <= '9')
      && ParseDigits(m[9..9 + n]) == count
  {
    var m, digits := EmbeddingsMessage(documentId, count), NatToString(count);
    assert m[9..9 + |digits|] == digits;
    NatToStringRoundTrip(count);
  }

  /**
   * The job's two answers never look alike: a message of the success path
   * starts with "Generate", one of the error path with "Error".
   */
  lemma EmbeddingsMessagesDistinct(documentId: DocId, count: nat, error: string)
    ensures EmbeddingsMessage(documentId, count) != EmbeddingsErrorMessage(error)
  {
    assert EmbeddingsMessage(documentId, count)[0] == 'G';
    assert EmbeddingsErrorMessage(error)[0] == 'E';
  }
}
