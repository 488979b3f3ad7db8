/**
 * The records of backend/documents/models.py that the pipeline reads and
 * writes, and the database that holds them. Identifiers are plain values;
 * timestamps are opaque numbers supplied by the caller.
 */
module Records {
  import opened Wrappers

  type DocId = string
  type UserId = string
  type Timestamp = int

  /** An embedding: one real coordinate per dimension. */
  type Vector = seq<real>

  /** The four processing states of a document (models.py:33-38). */
  datatype Status = Pending | Processing | Completed | Failed

  /** A `Document` row (models.py:24-72): the fields the pipeline touches. */
  datatype Document = Document(
    owner: UserId,
    title: string,
    fileType: string,
    status: Status,
    processingError: Option<string>,
    extractedText: string,
    pageCount: int,
    wordCount: int,
    processedAt: Option<Timestamp>)

  /** A `DocumentChunk` row (models.py:74-95); `embedding` is null until the chunk is embedded. */
  datatype Chunk = Chunk(
    id: nat,
    document: DocId,
    text: string,
    chunkIndex: int,
    pageNumber: int,
    embedding: Option<Vector>)

  /**
   * The database as the tasks and the retrieval service see it: the
   * documents by id, the chunk table in insertion order, each user's
   * `total_documents` counter, the next fresh chunk id, and the ids of the
   * documents whose embedding job has been queued.
   */
  datatype Db = Db(
    documents: map<DocId, Document>,
    chunks: seq<Chunk>,
    totalDocuments: map<UserId, int>,
    nextChunkId: nat,
    scheduled: seq<DocId>)
  {
    /**
     * Foreign keys hold (every document's owner has a counter, every chunk's
     * document exists) and chunk ids are fresh and increase in insertion
     * order, so no two chunks share an id.
     */
    ghost predicate Consistent()
    {
      && (forall id :: id in documents ==> documents[id].owner in totalDocuments)
      && (forall i :: 0 <= i < |chunks| ==> chunks[i].document in documents && chunks[i].id < nextChunkId)
      && (forall i, j :: 0 <= i < j < |chunks| ==> chunks[i].id < chunks[j].id)
    }
  }

  /** The live database, whose tables the tasks update in place. */
  class Store {
    var documents: map<DocId, Document>
    var chunks: seq<Chunk>
    var totalDocuments: map<UserId, int>
    var nextChunkId: nat
    var scheduled: seq<DocId>

    /** The current contents of every table. */
    function Snapshot(): Db
      reads this
    {
      Db(documents, chunks, totalDocuments, nextChunkId, scheduled)
    }

    ghost predicate Valid()
      reads this
    {
      Snapshot().Consistent()
    }
  }
}
